/** The VID that a cluster asks for: no call carries it, and no decision depends on it. */
module VlanRequests {
  import opened Prelude
  import opened Api
  import opened ClusterFlow
  import opened ClusterFleet
  import VlanOwnership

  /** The same cluster, asking for this VID (or for none) if it asks for a VLAN at all. */
  function Asking(c: Cluster, vid: Option<int>): Cluster {
    if c.spec.vlan.None? then c else c.(spec := c.spec.(vlan := Some(c.spec.vlan.value.(vid := vid))))
  }

  /** The same point of a reconcile, of a cluster that asks for this VID. */
  function RunAsking(run: Run, vid: Option<int>): Run {
    match run
    case Reading => Reading
    case Owning(c) => Owning(Asking(c, vid))
    case Locating(c, owner) => Locating(Asking(c, vid), owner)
    case Fetching(c, owner, id) => Fetching(Asking(c, vid), owner, id)
    case Verifying(c, owner, id) => Verifying(Asking(c, vid), owner, id)
    case Listing(c, owner, request) => Listing(Asking(c, vid), owner, request)
    case Creating(c, owner, request) => Creating(Asking(c, vid), owner, request)
    case Discovering(c, owner) => Discovering(Asking(c, vid), owner)
    case Inspecting(c, ref) => Inspecting(Asking(c, vid), ref)
    case Removing(c, id) => Removing(Asking(c, vid), id)
    case Saving(c, outcome) => Saving(Asking(c, vid), outcome)
    case Finished(outcome) => Finished(outcome)
  }

  lemma ReadyIgnoresVid(c: Cluster, o: OwnerCluster, now: int, vid: Option<int>)
    ensures EnterReady(Asking(c, vid), o, now) == RunAsking(EnterReady(c, o, now), vid)
  {}

  lemma AbortIgnoresVid(c: Cluster, error: string, now: int, vid: Option<int>)
    ensures Abort(Asking(c, vid), error, now) == RunAsking(Abort(c, error, now), vid)
  {}

  lemma CreateIgnoresVid(c: Cluster, o: OwnerCluster, now: int, vid: Option<int>)
    ensures EnterCreate(Asking(c, vid), o, now) == RunAsking(EnterCreate(c, o, now), vid)
  {
    if !OwnsVlan(c) || c.spec.project.None? {
      AbortIgnoresVid(c, VlanError("projectRef is required for VLAN creation"), now, vid);
    } else if c.spec.project.value == "" {
      AbortIgnoresVid(c, CreateError("projectID is required"), now, vid);
    } else if c.spec.location == "" {
      AbortIgnoresVid(c, CreateError("site is required"), now, vid);
    } else {
      assert RequestFor(Asking(c, vid)) == RequestFor(c);
    }
  }

  lemma VlanIgnoresVid(c: Cluster, o: OwnerCluster, now: int, vid: Option<int>)
    ensures EnterVlan(Asking(c, vid), o, now) == RunAsking(EnterVlan(c, o, now), vid)
  {
    if c.spec.vlan.None? {
    } else if c.spec.vlan.value.existing.Some? {
      ReadyIgnoresVid(c.(status := c.status.(vlanID := c.spec.vlan.value.existing)), o, now, vid);
    } else {
      CreateIgnoresVid(c, o, now, vid);
    }
  }

  lemma DeletionIgnoresVid(c: Cluster, vid: Option<int>)
    ensures EnterDelete(Asking(c, vid)) == RunAsking(EnterDelete(c), vid)
  {}

  lemma EntryIgnoresVid(c: Cluster, o: OwnerCluster, now: int, vid: Option<int>)
    ensures Enter(Asking(c, vid), o, now) == RunAsking(Enter(c, o, now), vid)
  {
    var d := Asking(c, vid);
    assert SpecErrors(d) == SpecErrors(c) && d.deleting == c.deleting && d.finalizer == c.finalizer;
    if c.deleting {
      DeletionIgnoresVid(c, vid);
    }
  }

  lemma OwningIgnoresVid(run: Run, reply: Reply, now: int, vid: Option<int>)
    requires run.Owning? && Fits(Pending(run), reply)
    ensures Resume(RunAsking(run, vid), reply, now) == RunAsking(Resume(run, reply, now), vid)
  {
    if reply.owner.Found? {
      EntryIgnoresVid(run.c, reply.owner.value, now, vid);
    }
  }

  lemma LocatingIgnoresVid(run: Run, reply: Reply, now: int, vid: Option<int>)
    requires run.Locating? && Fits(Pending(run), reply)
    ensures Resume(RunAsking(run, vid), reply, now) == RunAsking(Resume(run, reply, now), vid)
  {
    match reply.regions
    case Err(e) => AbortIgnoresVid(run.c, "failed to get available regions: " + e, now, vid);
    case Ok(regions) =>
      if run.c.spec.location in regions {
        VlanIgnoresVid(run.c, run.owner, now, vid);
      } else {
        AbortIgnoresVid(run.c, NotAvailable(run.c.spec.location, regions), now, vid);
      }
  }

  lemma FetchingIgnoresVid(run: Run, reply: Reply, now: int, vid: Option<int>)
    requires run.Fetching? && Fits(Pending(run), reply)
    ensures Resume(RunAsking(run, vid), reply, now) == RunAsking(Resume(run, reply, now), vid)
  {
    match reply.vlan
    case Err(e) => AbortIgnoresVid(run.c, VlanError("failed to get existing VLAN: " + e), now, vid);
    case Ok(v) => ReadyIgnoresVid(run.c.(status := run.c.status.(vlanVID := Some(v.vid))), run.owner, now, vid);
  }

  lemma VerifyingIgnoresVid(run: Run, reply: Reply, now: int, vid: Option<int>)
    requires run.Verifying? && Fits(Pending(run), reply)
    ensures Resume(RunAsking(run, vid), reply, now) == RunAsking(Resume(run, reply, now), vid)
  {
    match reply.vlan
    case Err(_) => CreateIgnoresVid(run.c, run.owner, now, vid);
    case Ok(v) =>
      var c := if run.c.status.vlanVID.None? then run.c.(status := run.c.status.(vlanVID := Some(v.vid))) else run.c;
      ReadyIgnoresVid(c, run.owner, now, vid);
  }

  lemma ListingIgnoresVid(run: Run, reply: Reply, now: int, vid: Option<int>)
    requires run.Listing? && Fits(Pending(run), reply)
    ensures Resume(RunAsking(run, vid), reply, now) == RunAsking(Resume(run, reply, now), vid)
  {
    if reply.vlans.Ok? && FindVlan(reply.vlans.value, run.request.description).Some? {
      ReadyIgnoresVid(WithVlan(run.c, FindVlan(reply.vlans.value, run.request.description).value), run.owner, now, vid);
    }
  }

  lemma CreatingIgnoresVid(run: Run, reply: Reply, now: int, vid: Option<int>)
    requires run.Creating? && Fits(Pending(run), reply)
    ensures Resume(RunAsking(run, vid), reply, now) == RunAsking(Resume(run, reply, now), vid)
  {
    match reply.vlan
    case Err(e) => AbortIgnoresVid(run.c, CreateError(e), now, vid);
    case Ok(v) => ReadyIgnoresVid(WithVlan(run.c, v), run.owner, now, vid);
  }

  lemma InspectingIgnoresVid(run: Run, reply: Reply, now: int, vid: Option<int>)
    requires run.Inspecting? && Fits(Pending(run), reply)
    ensures Resume(RunAsking(run, vid), reply, now) == RunAsking(Resume(run, reply, now), vid)
  {}

  lemma LaterIgnoresVid(run: Run, reply: Reply, now: int, vid: Option<int>)
    requires run.Discovering? || run.Removing? || run.Saving?
    requires Fits(Pending(run), reply)
    ensures Fits(Pending(RunAsking(run, vid)), reply)
    ensures Resume(RunAsking(run, vid), reply, now) == RunAsking(Resume(run, reply, now), vid)
  {}

  /**
   * Two reconciles whose clusters differ in the requested VID alone make the same calls (but for the object that they
   * save), and go on alike after the same answers.
   */
  lemma RequestedVidIsIgnored(run: Run, reply: Reply, now: int, vid: Option<int>)
    requires !run.Reading? && !run.Finished? && Fits(Pending(run), reply)
    ensures if run.Saving? then Pending(RunAsking(run, vid)) == Save(Asking(run.c, vid))
            else Pending(RunAsking(run, vid)) == Pending(run)
    ensures Resume(RunAsking(run, vid), reply, now) == RunAsking(Resume(run, reply, now), vid)
  {
    match run
    case Owning(_) => OwningIgnoresVid(run, reply, now, vid);
    case Locating(_, _) => LocatingIgnoresVid(run, reply, now, vid);
    case Fetching(_, _, _) => FetchingIgnoresVid(run, reply, now, vid);
    case Verifying(_, _, _) => VerifyingIgnoresVid(run, reply, now, vid);
    case Listing(_, _, _) => ListingIgnoresVid(run, reply, now, vid);
    case Creating(_, _, _) => CreatingIgnoresVid(run, reply, now, vid);
    case Inspecting(_, _) => InspectingIgnoresVid(run, reply, now, vid);
    case Discovering(_, _) | Removing(_, _) | Saving(_, _) => LaterIgnoresVid(run, reply, now, vid);
  }

  /** So the VID on record is the requested one exactly when the cloud happened to give that one to the VLAN on record. */
  lemma RequestIsMetByChance(actions: seq<Action>, u: Uid, vid: int)
    requires Execute(actions).Some? && u in Execute(actions).value.clusters
    requires Execute(actions).value.clusters[u].status.vlanVID.Some?
    ensures var s := Execute(actions).value; var c := s.clusters[u].status;
            && c.vlanID.Some? && c.vlanID.value in s.issued
            && (c.vlanVID == Some(vid) <==> s.issued[c.vlanID.value].vid == vid)
  {
    VlanOwnership.VidMatchesVlan(actions, u);
  }
}
