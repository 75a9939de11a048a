/** The cluster that a reconcile holds in memory, and its session with the outside world. */
module ClusterScope {
  import opened Prelude
  import opened Text
  import opened Conditions
  import opened Api
  import opened ClusterFlow

  /** The in-memory LatitudeCluster. */
  class LatitudeCluster {
    const uid: Uid
    const namespace: string
    const name: string
    const deleting: bool
    const spec: ClusterSpec
    var finalizer: bool
    var ready: bool
    var endpoint: Endpoint
    var vlanID: Option<string>
    var vlanVID: Option<int>
    var conditions: seq<Condition>

    ghost function Value(): Cluster
      reads this
    {
      Cluster(uid, namespace, name, deleting, finalizer, spec, ClusterStatus(ready, endpoint, vlanID, vlanVID, conditions))
    }

    constructor (c: Cluster)
      ensures Value() == c
    {
      uid, namespace, name, deleting, spec, finalizer := c.uid, c.namespace, c.name, c.deleting, c.spec, c.finalizer;
      ready, endpoint, vlanID, vlanVID := c.status.ready, c.status.endpoint, c.status.vlanID, c.status.vlanVID;
      conditions := c.status.conditions;
    }

    /** setCondition for ClusterReady */
    method SetCondition(status: Truth, reason: Reason, message: string, now: int)
      modifies this`conditions
      ensures Value() == Report(old(Value()), status, reason, message, now)
    {
      conditions := Conditions.SetCondition(conditions, Condition(ClusterReady, status, reason, message, 0, now),
                                            RewriteOnChange);
    }
  }

  // ---- what the cloud client makes of a list ----

  datatype VlanAttributes = VlanAttributes(description: Option<string>, vid: Option<int>)

  /** An entry as the API returns it: without attributes the client skips it, missing ones become empty or zero. */
  datatype RawVlan = RawVlan(id: string, attributes: Option<VlanAttributes>)

  function VlanFrom(id: string, attributes: VlanAttributes): Vlan {
    Vlan(id,
         if attributes.description.Some? then attributes.description.value else "",
         if attributes.vid.Some? then attributes.vid.value else 0)
  }

  function VlansFrom(raw: seq<RawVlan>): seq<Vlan> {
    if raw == [] then []
    else
      var n := |raw| - 1;
      VlansFrom(raw[..n])
      + if raw[n].attributes.None? then [] else [VlanFrom(raw[n].id, raw[n].attributes.value)]
  }

  /** The loop of ListVLANs. */
  method CollectVlans(raw: seq<RawVlan>) returns (vlans: seq<Vlan>)
    ensures vlans == VlansFrom(raw)
  {
    vlans := [];
    for i := 0 to |raw|
      invariant vlans == VlansFrom(raw[..i])
    {
      assert raw[..i + 1][..i] == raw[..i];
      if raw[i].attributes.None? {
        continue;
      }
      vlans := vlans + [VlanFrom(raw[i].id, raw[i].attributes.value)];
    }
    assert raw[..|raw|] == raw;
  }

  /** The client returns exactly the entries that have attributes. */
  lemma {:induction false} VlansFromKeepsAll(raw: seq<RawVlan>, v: Vlan)
    ensures v in VlansFrom(raw) <==>
            exists i :: 0 <= i < |raw| && raw[i].attributes.Some? && VlanFrom(raw[i].id, raw[i].attributes.value) == v
  {
    if raw != [] {
      var n := |raw| - 1;
      VlansFromKeepsAll(raw[..n], v);
      assert forall i :: 0 <= i < n ==> raw[..n][i] == raw[i];
    }
  }

  /** The loop of CreateVLAN over the existing VLANs. */
  method SearchVlan(vlans: seq<Vlan>, description: string) returns (found: Option<Vlan>)
    ensures found == FindVlan(vlans, description)
  {
    for i := 0 to |vlans|
      invariant FindVlan(vlans, description) == FindVlan(vlans[i..], description)
    {
      assert vlans[i..][1..] == vlans[i + 1..];
      if vlans[i].description == description {
        return Some(vlans[i]);
      }
    }
    found := None;
  }

  // ---- the session ----

  ghost function Replay(log: seq<(Reply, int)>): Option<Run> {
    if log == [] then Some(Reading)
    else
      var n := |log| - 1;
      var before := Replay(log[..n]);
      if before.Some? && !before.value.Finished? && Fits(Pending(before.value), log[n].0) then
        Some(Resume(before.value, log[n].0, log[n].1))
      else None
  }

  /** The Kubernetes client and the cloud client, as one reconcile uses them; see MachineScope.Session. */
  class Session {
    ghost var log: seq<(Reply, int)>
    ghost var run: Run
    var clock: int

    ghost predicate Valid()
      reads this
    {
      Replay(log) == Some(run)
    }

    constructor ()
      ensures Valid() && run == Reading && log == []
    {
      log, run := [], Reading;
    }

    ghost predicate Awaits(call: Call)
      reads this
    {
      Valid() && !run.Finished? && Pending(run) == call
    }

    method Await()
      modifies this`clock
    {
      clock := *;
    }

    ghost method Hear(reply: Reply)
      requires Valid() && !run.Finished? && Fits(Pending(run), reply)
      modifies this`log, this`run
      ensures Valid() && run == Resume(old(run), reply, clock) && log == old(log) + [(reply, clock)]
    {
      log := log + [(reply, clock)];
      assert log[..|log| - 1] == old(log);
      run := Resume(run, reply, clock);
    }

    method GetCluster() returns (read: Read<Cluster>)
      requires Awaits(ClusterFlow.GetCluster)
      modifies this
      ensures Valid() && run == Resume(old(run), ClusterIs(read), clock)
    {
      Await();
      read := *;
      Hear(ClusterIs(read));
    }

    method GetOwner() returns (owner: Read<OwnerCluster>)
      requires Awaits(ClusterFlow.GetOwner)
      modifies this
      ensures Valid() && run == Resume(old(run), OwnerIs(owner), clock)
    {
      Await();
      owner := *;
      Hear(OwnerIs(owner));
    }

    method GetAvailableRegions() returns (regions: Result<seq<string>>)
      requires Awaits(GetRegions)
      modifies this
      ensures Valid() && run == Resume(old(run), RegionsAre(regions), clock)
    {
      Await();
      regions := *;
      Hear(RegionsAre(regions));
    }

    /** An empty id is refused without a call; missing attributes become empty or zero. */
    method GetVLAN(id: string) returns (vlan: Result<Vlan>)
      requires Awaits(GetVlan(id))
      modifies this
      ensures Valid() && run == Resume(old(run), VlanIs(vlan), clock)
      ensures vlan.Ok? ==> id != ""
    {
      Await();
      var error: Option<string>, attributes: Option<VlanAttributes>, actual: string := *, *, *;
      if id == "" {
        vlan := Err("vlanID is required");
      } else {
        match error
        case Some(e) => vlan := Err("failed to get VLAN: " + e);
        case None =>
          match attributes
          case None => vlan := Ok(Vlan(actual, "", 0));
          case Some(a) => vlan := Ok(VlanFrom(actual, a));
      }
      Hear(VlanIs(vlan));
    }

    method ListVLANs(project: string) returns (vlans: Result<seq<Vlan>>)
      requires Awaits(ListVlans(project))
      modifies this
      ensures Valid() && run == Resume(old(run), VlansAre(vlans), clock)
    {
      Await();
      var reply: Result<seq<RawVlan>> := *;
      match reply {
        case Err(e) => vlans := Err("failed to list VLANs: " + e);
        case Ok(raw) =>
          var all := CollectVlans(raw);
          vlans := Ok(all);
      }
      Hear(VlansAre(vlans));
    }

    /** The creation itself: the reply's id, the requested description, and the VID if there is one. */
    method PostVLAN(request: VlanRequest) returns (vlan: Result<Vlan>)
      requires Awaits(PostVlan(request))
      modifies this
      ensures Valid() && run == Resume(old(run), VlanIs(vlan), clock)
      ensures vlan.Ok? ==> vlan.value.description == request.description
    {
      Await();
      var reply: Result<string>, vid: Option<int> := *, *;
      match reply {
        case Err(e) => vlan := Err("failed to create VLAN: " + e);
        case Ok(id) =>
          match vid
          case None => vlan := Ok(Vlan(id, request.description, 0));
          case Some(n) => vlan := Ok(Vlan(id, request.description, n));
      }
      Hear(VlanIs(vlan));
    }

    method ListCapiMachines(owner: OwnerCluster) returns (machines: Result<seq<CapiMachine>>)
      requires Awaits(ListMachines(owner))
      modifies this
      ensures Valid() && run == Resume(old(run), MachinesAre(machines), clock)
    {
      Await();
      machines := *;
      Hear(MachinesAre(machines));
    }

    method GetLatitudeMachine(ref: InfraRef) returns (machine: Read<Machine>)
      requires Awaits(GetInfra(ref))
      modifies this
      ensures Valid() && run == Resume(old(run), InfraIs(machine), clock)
    {
      Await();
      machine := *;
      Hear(InfraIs(machine));
    }

    /** A VLAN that is gone already counts as deleted. */
    method DeleteVLAN(id: string) returns (error: Option<string>)
      requires Awaits(DeleteVlan(id))
      modifies this
      ensures Valid() && run == Resume(old(run), Done(error), clock)
      ensures error.None? ==> id != ""
    {
      Await();
      if id == "" {
        error := Some("vlanID is required");
      } else {
        error := *;
        match error
        case None =>
        case Some(e) =>
          if Contains(e, "not found") || Contains(e, "404") {
            error := None;
          } else {
            error := Some("failed to delete VLAN: " + e);
          }
      }
      Hear(Done(error));
    }

    method Patch(c: LatitudeCluster) returns (error: Option<string>)
      requires Awaits(Save(c.Value()))
      modifies this
      ensures Valid() && run == Resume(old(run), Done(error), clock)
    {
      Await();
      error := *;
      Hear(Done(error));
    }
  }
}
