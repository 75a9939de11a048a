/**
 * The cluster reconciler, method by method, in place on the in-memory object, each verified against the conversation
 * of ClusterFlow: the same calls, with the same arguments, to the same end.
 */
module ClusterController {
  import opened Prelude
  import opened Text
  import opened Conditions
  import opened Api
  import opened ClusterFlow
  import opened ClusterScope
  import EndpointChoice

  /** validateClusterSpec: an error if and only if something is missing, and then it names all of it. */
  method ValidateClusterSpec(c: LatitudeCluster) returns (error: Option<string>)
    ensures error.None? <==> c.spec.location != "" && c.spec.project.Some? && c.spec.project.value != ""
    ensures error == if SpecErrors(c.Value()) == [] then None
                     else Some("validation failed: " + Join(SpecErrors(c.Value()), ", "))
  {
    var errors: seq<string> := [];
    if c.spec.location == "" {
      errors := errors + ["location is required"];
    }
    if c.spec.project.None? || c.spec.project.value == "" {
      errors := errors + ["projectRef.projectID is required"];
    }
    assert errors == SpecErrors(c.Value());
    if |errors| > 0 {
      return Some("validation failed: " + Join(errors, ", "));
    }
    error := None;
  }

  method IsAvailable(location: string, regions: seq<string>) returns (found: bool)
    ensures found == (location in regions)
  {
    found := false;
    for i := 0 to |regions|
      invariant !found && location !in regions[..i]
    {
      if regions[i] == location {
        found := true;
        break;
      }
    }
  }

  /** Where the conversation stands behind reconcileInfrastructure. */
  ghost function AfterInfrastructure(c: Cluster, owner: OwnerCluster, error: Option<string>, now: int): Run {
    match error
    case None => EnterReady(c, owner, now)
    case Some(e) => Abort(c, e, now)
  }

  /** Where it stands behind the parts of reconcileVLAN, which prefix their errors. */
  ghost function AfterVlan(c: Cluster, owner: OwnerCluster, error: Option<string>, now: int): Run {
    match error
    case None => EnterReady(c, owner, now)
    case Some(e) => Abort(c, VlanError(e), now)
  }

  /** Where it stands behind CreateVLAN of the cloud client. */
  ghost function AfterCreate(c: Cluster, owner: OwnerCluster, vlan: Result<Vlan>, now: int): Run {
    match vlan
    case Ok(v) => EnterReady(WithVlan(c, v), owner, now)
    case Err(e) => Abort(c, CreateError(e), now)
  }

  /** CreateVLAN: the VLAN that has the description already, or else a new one; a failed list is ignored. */
  method CreateVLAN(c: LatitudeCluster, ghost owner: OwnerCluster, project: string, site: string, description: string,
                    s: Session) returns (vlan: Result<Vlan>)
    requires s.Valid() && OwnsVlan(c.Value()) && c.spec.project == Some(project) && site == c.spec.location
    requires description == Description(c.Value()) && s.run == EnterCreate(c.Value(), owner, s.clock)
    modifies s
    ensures s.Valid() && s.run == AfterCreate(c.Value(), owner, vlan, s.clock)
    ensures vlan.Ok? ==> vlan.value.description == description
  {
    if project == "" {
      return Err("projectID is required");
    }
    assert |description| > 0;
    if site == "" {
      return Err("site is required");
    }
    ghost var request := VlanRequest(project, site, description);
    assert s.run == Listing(c.Value(), owner, request);
    vlan := FindOrPost(c, owner, VlanRequest(project, site, description), s);
  }

  method FindOrPost(c: LatitudeCluster, ghost owner: OwnerCluster, request: VlanRequest, s: Session)
    returns (vlan: Result<Vlan>)
    requires s.Valid() && s.run == Listing(c.Value(), owner, request)
    modifies s
    ensures s.Valid() && s.run == AfterCreate(c.Value(), owner, vlan, s.clock)
    ensures vlan.Ok? ==> vlan.value.description == request.description
  {
    var existingVLANs := s.ListVLANs(request.project);
    if existingVLANs.Ok? {
      var found := SearchVlan(existingVLANs.value, request.description);
      if found.Some? {
        FoundDescribed(existingVLANs.value, request.description);
        return Ok(found.value);
      }
    }
    assert s.run == Creating(c.Value(), owner, request);
    vlan := s.PostVLAN(request.(site := ToLower(request.site)));
  }

  lemma {:induction false} FoundDescribed(vlans: seq<Vlan>, description: string)
    requires FindVlan(vlans, description).Some?
    ensures FindVlan(vlans, description).value.description == description
    ensures FindVlan(vlans, description).value in vlans
  {
    if vlans[0].description != description {
      FoundDescribed(vlans[1..], description);
    }
  }

  /** A VLAN of the cluster's own. */
  method ReconcileOwnVlan(c: LatitudeCluster, ghost owner: OwnerCluster, s: Session) returns (error: Option<string>)
    requires s.Valid() && OwnsVlan(c.Value()) && s.run == EnterVlan(c.Value(), owner, s.clock)
    modifies s, c`vlanID, c`vlanVID
    ensures s.Valid() && s.run == AfterVlan(c.Value(), owner, error, s.clock)
  {
    if c.vlanID.Some? {
      var existing := s.GetVLAN(c.vlanID.value);
      if existing.Ok? {
        if c.vlanVID.None? {
          c.vlanVID := Some(existing.value.vid);
        }
        return None;
      }
    }
    assert s.run == EnterCreate(c.Value(), owner, s.clock);
    error := RequestVlan(c, owner, s);
  }

  /** The description that finds the VLAN again, and the request for it. */
  method RequestVlan(c: LatitudeCluster, ghost owner: OwnerCluster, s: Session) returns (error: Option<string>)
    requires s.Valid() && OwnsVlan(c.Value()) && s.run == EnterCreate(c.Value(), owner, s.clock)
    modifies s, c`vlanID, c`vlanVID
    ensures s.Valid() && s.run == AfterVlan(c.Value(), owner, error, s.clock)
  {
    var description := "capl-" + c.name + "-" + c.spec.vlan.value.subnet;
    if c.spec.project.None? {
      return Some("projectRef is required for VLAN creation");
    }
    var vlan := CreateVLAN(c, owner, c.spec.project.value, c.spec.location, description, s);
    match vlan
    case Err(e) => error := Some("failed to create VLAN: " + e);
    case Ok(v) =>
      c.vlanID := Some(v.id);
      c.vlanVID := Some(v.vid);
      error := None;
  }

  method ReconcileVLAN(c: LatitudeCluster, ghost owner: OwnerCluster, s: Session) returns (error: Option<string>)
    requires s.Valid() && s.run == EnterVlan(c.Value(), owner, s.clock)
    modifies s, c`vlanID, c`vlanVID
    ensures s.Valid() && s.run == AfterVlan(c.Value(), owner, error, s.clock)
  {
    if c.spec.vlan.None? {
      return None;
    }
    var vlanConfig := c.spec.vlan.value;
    if vlanConfig.existing.None? {
      error := ReconcileOwnVlan(c, owner, s);
      return;
    }
    c.vlanID := vlanConfig.existing;
    if c.vlanVID.None? {
      var existing := s.GetVLAN(vlanConfig.existing.value);
      match existing {
        case Err(e) => return Some("failed to get existing VLAN: " + e);
        case Ok(v) => c.vlanVID := Some(v.vid);
      }
    }
    error := None;
  }

  method ReconcileInfrastructure(c: LatitudeCluster, ghost owner: OwnerCluster, s: Session) returns (error: Option<string>)
    requires s.Valid() && s.run == Locating(c.Value(), owner)
    modifies s, c`vlanID, c`vlanVID
    ensures s.Valid() && s.run == AfterInfrastructure(c.Value(), owner, error, s.clock)
  {
    var regions := s.GetAvailableRegions();
    match regions
    case Err(e) => error := Some("failed to get available regions: " + e);
    case Ok(all) =>
      var found := IsAvailable(c.spec.location, all);
      if !found {
        return Some(NotAvailable(c.spec.location, all));
      }
      error := ReconcileVLAN(c, owner, s);
      if error.Some? {
        error := Some("failed to reconcile VLAN: " + error.value);
      }
  }

  /** The first control-plane Machine of the list. */
  method PickControlPlane(machines: seq<CapiMachine>) returns (picked: Option<CapiMachine>)
    ensures picked == FindControlPlane(machines)
  {
    picked := None;
    for i := 0 to |machines|
      invariant picked == None && FindControlPlane(machines) == FindControlPlane(machines[i..])
    {
      assert machines[i..][1..] == machines[i + 1..];
      if machines[i].controlPlane {
        picked := Some(machines[i]);
        break;
      }
    }
  }

  /** SetupControlPlaneEndpoint: whether there is an endpoint now; every error means the same as not yet. */
  method SetupControlPlaneEndpoint(c: LatitudeCluster, owner: OwnerCluster, s: Session) returns (endpointSet: bool)
    requires s.Valid() && c.ready && s.run == EnterReady(c.Value(), owner, s.clock)
    modifies s, c`endpoint, c`conditions
    ensures s.Valid() && s.run == Saving(c.Value(), if endpointSet then DONE else SECONDS_15)
    ensures endpointSet <==> c.endpoint.host != ""
    ensures old(c.endpoint.host) != "" ==> c.endpoint == old(c.endpoint)
  {
    if c.endpoint.host != "" {
      return true;
    }
    var machines := s.ListCapiMachines(owner);
    if machines.Err? {
      return false;
    }
    if |machines.value| == 0 {
      return false;
    }
    var controlPlane := PickControlPlane(machines.value);
    if controlPlane.None? {
      return false;
    }
    if controlPlane.value.infra.name == "" {
      return false;
    }
    assert s.run == Inspecting(c.Value(), controlPlane.value.infra);
    endpointSet := InspectMachine(c, controlPlane.value.infra, s);
  }

  method InspectMachine(c: LatitudeCluster, ref: InfraRef, s: Session) returns (endpointSet: bool)
    requires s.Valid() && s.run == Inspecting(c.Value(), ref) && c.endpoint.host == ""
    modifies s, c`endpoint, c`conditions
    ensures s.Valid() && s.run == Saving(c.Value(), if endpointSet then DONE else SECONDS_15)
    ensures endpointSet <==> c.endpoint.host != ""
  {
    var machine := s.GetLatitudeMachine(ref);
    match machine
    case Missing => endpointSet := false;
    case Failed(_) => endpointSet := false;
    case Found(m) =>
      if !m.status.ready {
        return false;
      }
      var externalIP := EndpointChoice.SelectIP(m.status.addresses);
      if externalIP == "" {
        return false;
      }
      c.endpoint := Endpoint(externalIP, 6443);
      c.SetCondition(ConditionFalse, ControlPlaneEndpointSet, "Control plane endpoint set to " + externalIP + ":6443", s.clock);
      endpointSet := true;
  }

  method ReconcileNormal(c: LatitudeCluster, owner: OwnerCluster, s: Session) returns (outcome: Outcome)
    requires s.Valid() && !c.deleting && s.run == Enter(c.Value(), owner, s.clock)
    modifies s, c
    ensures s.Valid() && s.run == Saving(c.Value(), outcome)
  {
    if !c.finalizer {
      c.finalizer := true;
      return DONE;
    }
    var invalid := ValidateClusterSpec(c);
    if invalid.Some? {
      c.SetCondition(ConditionFalse, InvalidClusterConfig, invalid.value, s.clock);
      return DONE;
    }
    outcome := Provide(c, owner, s);
  }

  /** ReconcileNormal behind the validation. */
  method Provide(c: LatitudeCluster, owner: OwnerCluster, s: Session) returns (outcome: Outcome)
    requires s.Valid() && s.run == Locating(c.Value(), owner)
    modifies s, c
    ensures s.Valid() && s.run == Saving(c.Value(), outcome)
  {
    var error := ReconcileInfrastructure(c, owner, s);
    if error.Some? {
      c.SetCondition(ConditionFalse, ClusterProvisionFailed, error.value, s.clock);
      return Returned(30, error);
    }
    if !c.ready {
      c.ready := true;
      c.SetCondition(ConditionTrue, ClusterIsReady, "Cluster infrastructure is ready", s.clock);
      return DONE;
    }
    var endpointSet := SetupControlPlaneEndpoint(c, owner, s);
    if !endpointSet {
      return SECONDS_15;
    }
    outcome := DONE;
  }

  /** CleanupVLAN: only a VLAN of the cluster's own is deleted; the error is dropped by the caller. */
  method CleanupVLAN(c: LatitudeCluster, s: Session)
    requires s.Valid() && s.run == EnterDelete(c.Value())
    modifies s
    ensures s.Valid() && s.run == Saving(c.Value().(finalizer := false), DONE)
  {
    if c.vlanID.None? {
      return;
    }
    if c.spec.vlan.Some? && c.spec.vlan.value.existing.Some? {
      return;
    }
    var _ := s.DeleteVLAN(c.vlanID.value);
  }

  method ReconcileDelete(c: LatitudeCluster, s: Session) returns (outcome: Outcome)
    requires s.Valid() && s.run == EnterDelete(c.Value())
    modifies s, c`finalizer
    ensures s.Valid() && s.run == Saving(c.Value(), outcome)
    ensures !c.finalizer
  {
    CleanupVLAN(c, s);
    c.finalizer := false;
    outcome := DONE;
  }

  /** The deferred patch. Its error is returned unless there is another one. */
  method PatchDeferred(c: LatitudeCluster, result: Outcome, s: Session) returns (outcome: Outcome)
    requires s.Valid() && s.run == Saving(c.Value(), result)
    modifies s
    ensures s.Valid() && s.run == Finished(outcome)
  {
    var error := s.Patch(c);
    if error.Some? && result.Returned? && result.error.None? {
      outcome := result.(error := error);
    } else {
      outcome := result;
    }
  }

  /** Reconcile: every reconcile holds the conversation of ClusterFlow to its end, and returns what that returns. */
  method Reconcile(s: Session) returns (outcome: Outcome)
    requires s.Valid() && s.run == Reading
    modifies s
    ensures s.Valid() && s.run == Finished(outcome)
  {
    var read := s.GetCluster();
    match read
    case Missing => outcome := DONE;
    case Failed(e) => outcome := Failure(e);
    case Found(persisted) =>
      var c := new LatitudeCluster(persisted);
      var owner := s.GetOwner();
      match owner
      case Failed(e) => outcome := Failure(e);
      case Missing => outcome := Returned(10, None);
      case Found(cluster) =>
        var result;
        if c.deleting {
          result := ReconcileDelete(c, s);
        } else {
          result := ReconcileNormal(c, cluster, s);
        }
        outcome := PatchDeferred(c, result, s);
  }
}
