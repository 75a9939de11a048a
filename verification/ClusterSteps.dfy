/** What one answer can do to a cluster reconcile. */
module ClusterSteps {
  import opened Prelude
  import opened Conditions
  import opened Api
  import opened ClusterFlow
  import EndpointChoice

  function CallsLeft(run: Run): nat {
    match run
    case Finished(_) => 0
    case Saving(_, _) => 1
    case Removing(_, _) => 2
    case Inspecting(_, _) => 2
    case Discovering(_, _) => 3
    case Creating(_, _, _) => 4
    case Listing(_, _, _) => 5
    case Verifying(_, _, _) => 6
    case Fetching(_, _, _) => 6
    case Locating(_, _) => 7
    case Owning(_) => 8
    case Reading => 9
  }

  /** What the in-memory object satisfies at each point of a reconcile. */
  ghost predicate Shape(run: Run) {
    && (run.Fetching? ==> UsesExisting(run.c) && run.id == run.c.spec.vlan.value.existing.value
                          && run.c.status.vlanID == Some(run.id) && run.c.status.vlanVID.None?)
    && (run.Verifying? ==> OwnsVlan(run.c) && run.c.status.vlanID == Some(run.id))
    && (run.Listing? || run.Creating? ==> OwnsVlan(run.c) && run.request.description == Description(run.c))
    && (run.Discovering? || run.Inspecting? ==> run.c.status.ready && run.c.status.endpoint.host == "")
    && (run.Removing? ==> !UsesExisting(run.c) && run.c.status.vlanID == Some(run.id))
  }

  ghost predicate SameCluster(c: Cluster, c': Cluster) {
    c'.uid == c.uid && c'.namespace == c.namespace && c'.name == c.name && c'.spec == c.spec && c'.deleting == c.deleting
  }

  /** The VLAN that an answer brings: created, or found under the description. */
  function Adopted(run: Run, reply: Reply): Option<Vlan> {
    if run.Creating? && reply.VlanIs? && reply.vlan.Ok? then Some(reply.vlan.value)
    else if run.Listing? && reply.VlansAre? && reply.vlans.Ok? then FindVlan(reply.vlans.value, run.request.description)
    else None
  }

  /** The VID of a VLAN that is on record already. */
  function Verified(run: Run, reply: Reply): Option<int> {
    if (run.Fetching? || run.Verifying?) && reply.VlanIs? && reply.vlan.Ok? && run.c.status.vlanVID.None? then
      Some(reply.vlan.value.vid)
    else None
  }

  /** The host that an answer brings: the first IP of a ready machine. */
  function Chosen(run: Run, reply: Reply): string {
    if run.Inspecting? && reply.InfraIs? && reply.machine.Found? && reply.machine.value.status.ready then
      EndpointChoice.Select(reply.machine.value.status.addresses)
    else ""
  }

  /** How the memory moves: VLAN, VID, endpoint and Ready change only as these answers say. */
  ghost predicate Moves(run: Run, reply: Reply, c: Cluster, c': Cluster) {
    && SameCluster(c, c')
    && (Adopted(run, reply).Some? ==>
          c'.status.vlanID == Some(Adopted(run, reply).value.id) && c'.status.vlanVID == Some(Adopted(run, reply).value.vid))
    && (Adopted(run, reply).None? ==>
          && (c'.status.vlanID == c.status.vlanID || (UsesExisting(c) && c'.status.vlanID == c.spec.vlan.value.existing))
          && c'.status.vlanVID == (if Verified(run, reply).Some? then Verified(run, reply) else c.status.vlanVID))
    && c'.status.endpoint == (if Chosen(run, reply) != "" then Endpoint(Chosen(run, reply), 6443) else c.status.endpoint)
    && (c.status.ready ==> c'.status.ready)
  }

  /** Points at which the owner is known. */
  predicate HasOwner(run: Run) {
    run.Locating? || run.Fetching? || run.Verifying? || run.Listing? || run.Creating? || run.Discovering?
  }

  /** The order of the calls. */
  ghost predicate Leads(run: Run, reply: Reply, run': Run) {
    && !run'.Reading? && (run'.Owning? ==> run.Reading?)
    && (run'.Finished? ==> run.Reading? || run.Owning? || run.Saving?) && (run.Saving? ==> run'.Finished?)
    && (run'.Listing? ==> run.Locating? || run.Verifying?)
    && (run'.Creating? ==> run.Listing? && reply.VlansAre? && run'.request == run.request &&
                           (reply.vlans.Ok? ==> FindVlan(reply.vlans.value, run.request.description).None?))
    && (run.Listing? && reply.VlansAre? && reply.vlans.Err? ==> run'.Creating?)
    && (run'.Removing? ==> run.Owning?)
    && (HasOwner(run') ==>
          if run.Owning? then reply.OwnerIs? && reply.owner == Found(run'.owner)
          else HasOwner(run) && run'.owner == run.owner)
    && (run'.Inspecting? ==> run.Discovering? && reply.MachinesAre? && reply.machines.Ok? && run'.ref.name != "" &&
                             CapiMachine(true, run'.ref) in reply.machines.value)
  }

  ghost predicate Change(run: Run, reply: Reply, run': Run)
    requires !run.Finished? && Fits(Pending(run), reply)
  {
    && CallsLeft(run') < CallsLeft(run) && Shape(run') && Leads(run, reply, run')
    && (!run'.Finished? && run.Reading? ==> reply.cluster == Found(run'.c))
    && (!run'.Finished? && !run.Reading? ==> Moves(run, reply, run.c, run'.c))
  }

  /** The infrastructure part is over: only Ready may change any more before the next call. */
  ghost predicate Settles(c: Cluster, run': Run) {
    && (run'.Saving? || run'.Discovering?) && Shape(run')
    && SameCluster(c, run'.c)
    && run'.c.status.vlanID == c.status.vlanID && run'.c.status.vlanVID == c.status.vlanVID
    && run'.c.status.endpoint == c.status.endpoint
    && (c.status.ready ==> run'.c.status.ready)
  }

  lemma ReadySettles(c: Cluster, o: OwnerCluster, now: int)
    ensures Settles(c, EnterReady(c, o, now))
  {}

  lemma AbortSettles(c: Cluster, error: string, now: int)
    ensures Settles(c, Abort(c, error, now)) && Abort(c, error, now).Saving?
  {}

  lemma CreateEnters(c: Cluster, o: OwnerCluster, now: int)
    requires OwnsVlan(c)
    ensures var run' := EnterCreate(c, o, now);
            (run'.Saving? && Settles(c, run')) || (run'.Listing? && run'.c == c && Shape(run'))
  {}

  lemma VlanEnters(c: Cluster, o: OwnerCluster, now: int)
    ensures var run' := EnterVlan(c, o, now);
            || (!UsesExisting(c) && Settles(c, run'))
            || (run'.Listing? && run'.c == c && Shape(run'))
            || (run'.Verifying? && run'.c == c && Shape(run'))
            || (UsesExisting(c) && (run'.Fetching? || run'.Discovering? || run'.Saving?) && Shape(run') &&
                SameCluster(c, run'.c) && run'.c.status.vlanID == c.spec.vlan.value.existing &&
                run'.c.status.vlanVID == c.status.vlanVID && run'.c.status.endpoint == c.status.endpoint &&
                (c.status.ready ==> run'.c.status.ready))
  {
    if c.spec.vlan.None? {
      ReadySettles(c, o, now);
    } else if c.spec.vlan.value.existing.Some? {
      var d := c.(status := c.status.(vlanID := c.spec.vlan.value.existing));
      if c.status.vlanVID.Some? {
        ReadySettles(d, o, now);
      }
    } else if c.status.vlanID.None? {
      CreateEnters(c, o, now);
    }
  }

  lemma EarlyChange(run: Run, reply: Reply, now: int)
    requires (run.Reading? || run.Owning?) && Fits(Pending(run), reply) && Shape(run)
    ensures Change(run, reply, Resume(run, reply, now))
  {}

  lemma LocateChange(run: Run, reply: Reply, now: int)
    requires run.Locating? && Fits(Pending(run), reply) && Shape(run)
    ensures Change(run, reply, Resume(run, reply, now))
  {
    match reply.regions
    case Err(e) => AbortSettles(run.c, "failed to get available regions: " + e, now);
    case Ok(regions) =>
      if run.c.spec.location in regions {
        VlanEnters(run.c, run.owner, now);
      } else {
        AbortSettles(run.c, NotAvailable(run.c.spec.location, regions), now);
      }
  }

  lemma FetchChange(run: Run, reply: Reply, now: int)
    requires run.Fetching? && Fits(Pending(run), reply) && Shape(run)
    ensures Change(run, reply, Resume(run, reply, now))
  {
    match reply.vlan
    case Err(e) => AbortSettles(run.c, VlanError("failed to get existing VLAN: " + e), now);
    case Ok(v) => ReadySettles(run.c.(status := run.c.status.(vlanVID := Some(v.vid))), run.owner, now);
  }

  lemma VerifyChange(run: Run, reply: Reply, now: int)
    requires run.Verifying? && Fits(Pending(run), reply) && Shape(run)
    ensures Change(run, reply, Resume(run, reply, now))
  {
    match reply.vlan
    case Err(e) => CreateEnters(run.c, run.owner, now);
    case Ok(v) =>
      ReadySettles(if run.c.status.vlanVID.None? then run.c.(status := run.c.status.(vlanVID := Some(v.vid))) else run.c,
                   run.owner, now);
  }

  lemma ListChange(run: Run, reply: Reply, now: int)
    requires run.Listing? && Fits(Pending(run), reply) && Shape(run)
    ensures Change(run, reply, Resume(run, reply, now))
  {
    if Adopted(run, reply).Some? {
      ReadySettles(WithVlan(run.c, Adopted(run, reply).value), run.owner, now);
    }
  }

  lemma CreateChange(run: Run, reply: Reply, now: int)
    requires run.Creating? && Fits(Pending(run), reply) && Shape(run)
    ensures Change(run, reply, Resume(run, reply, now))
  {
    match reply.vlan
    case Err(e) => AbortSettles(run.c, CreateError(e), now);
    case Ok(v) => ReadySettles(WithVlan(run.c, v), run.owner, now);
  }

  /** The machine that is picked is on the list, and carries the control-plane label. */
  lemma {:induction false} PickedIsControlPlane(machines: seq<CapiMachine>)
    requires FindControlPlane(machines).Some?
    ensures FindControlPlane(machines).value in machines && FindControlPlane(machines).value.controlPlane
  {
    if !machines[0].controlPlane {
      PickedIsControlPlane(machines[1..]);
    }
  }

  lemma DiscoverChange(run: Run, reply: Reply, now: int)
    requires run.Discovering? && Fits(Pending(run), reply) && Shape(run)
    ensures Change(run, reply, Resume(run, reply, now))
  {
    if reply.machines.Ok? && FindControlPlane(reply.machines.value).Some? {
      PickedIsControlPlane(reply.machines.value);
    }
  }

  lemma LateChange(run: Run, reply: Reply, now: int)
    requires (run.Inspecting? || run.Removing? || run.Saving?) && Fits(Pending(run), reply) && Shape(run)
    ensures Change(run, reply, Resume(run, reply, now))
  {}

  lemma EveryChange(run: Run, reply: Reply, now: int)
    requires !run.Finished? && Fits(Pending(run), reply) && Shape(run)
    ensures Change(run, reply, Resume(run, reply, now))
  {
    match run
    case Reading | Owning(_) => EarlyChange(run, reply, now);
    case Locating(_, _) => LocateChange(run, reply, now);
    case Fetching(_, _, _) => FetchChange(run, reply, now);
    case Verifying(_, _, _) => VerifyChange(run, reply, now);
    case Listing(_, _, _) => ListChange(run, reply, now);
    case Creating(_, _, _) => CreateChange(run, reply, now);
    case Discovering(_, _) => DiscoverChange(run, reply, now);
    case Inspecting(_, _) | Removing(_, _) | Saving(_, _) => LateChange(run, reply, now);
  }

  /** Whatever the answers, a reconcile of a cluster ends after at most 9 calls. */
  lemma EveryReconcileEnds(run: Run, reply: Reply, now: int)
    requires !run.Finished? && Fits(Pending(run), reply) && Shape(run)
    ensures CallsLeft(Resume(run, reply, now)) < CallsLeft(run) <= 9
  {
    EveryChange(run, reply, now);
  }
}
