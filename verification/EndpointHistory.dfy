/** The control-plane endpoint across both controllers: where its host comes from, and that it is written once. */
module EndpointHistory {
  import opened Prelude
  import opened Api
  import opened ClusterFlow
  import opened ClusterSteps
  import opened ClusterFleet
  import opened ClusterInvariant
  import EndpointChoice
  import Fleet
  import FleetInvariant
  import MachineFlow
  import Permanence
  import Readiness

  // ---- the machine side of a joint run ----

  ghost predicate MachinesSettled(s: State) {
    FleetInvariant.Sound(s.fleet) && Readiness.AllSettled(s.fleet)
  }

  lemma {:induction false} AlwaysMachinesSettled(actions: seq<Action>)
    requires Execute(actions).Some?
    ensures MachinesSettled(Execute(actions).value)
  {
    if actions != [] {
      var n := |actions| - 1;
      AlwaysMachinesSettled(actions[..n]);
      MachinesSettledStep(Execute(actions[..n]).value, actions[n]);
    }
  }

  lemma MachinesSettledStep(s: State, a: Action)
    requires MachinesSettled(s) && Legal(s, a)
    ensures MachinesSettled(Step(s, a))
  {
    if a.Machines? {
      FleetInvariant.SoundStep(s.fleet, a.action);
      Readiness.SettledStep(s.fleet, a.action);
    }
  }

  /** The machine side only adds to its history, its owners and its births. */
  ghost predicate Grows(s: Fleet.State, t: Fleet.State) {
    && |s.log| <= |t.log| && t.log[..|s.log|] == s.log && s.controlPlanes <= t.controlPlanes
    && forall u :: u in s.born ==> u in t.born && t.born[u] == s.born[u]
  }

  lemma MachinesGrow(s: Fleet.State, a: Fleet.Action)
    requires FleetInvariant.ObjectsSound(s) && Fleet.Legal(s, a)
    ensures Grows(s, Fleet.Step(s, a))
  {}

  lemma FleetGrows(s: State, a: Action)
    requires FleetInvariant.ObjectsSound(s.fleet) && Legal(s, a)
    ensures Grows(s.fleet, Step(s, a).fleet)
  {
    if a.Machines? {
      MachinesGrow(s.fleet, a.action);
    }
  }

  // ---- who is a control plane ----

  /** The object u belongs to a control plane of this cluster. */
  ghost predicate Rules(fleet: Fleet.State, u: Uid, cluster: string) {
    u in fleet.controlPlanes && u in fleet.born && fleet.born[u].cluster == cluster
  }

  /** An object whose name belongs to a control-plane Machine is owned by one, of the same cluster. */
  ghost predicate Ruled(s: State, u: Uid)
    requires u in s.fleet.objects
  {
    var ref := RefOf(s.fleet.objects[u]);
    ref in s.controlPlaneNames ==> Rules(s.fleet, u, s.controlPlaneNames[ref])
  }

  /** The reconcile acts for the owner of its cluster, and inspects only control planes of it. */
  ghost predicate InOffice(s: State, a: Active) {
    && a.uid in s.owners
    && (HasOwner(a.run) ==> a.run.owner == s.owners[a.uid])
    && (a.run.Inspecting? ==>
          a.run.ref in s.controlPlaneNames && s.controlPlaneNames[a.run.ref] == s.owners[a.uid].name)
  }

  ghost predicate Roles(s: State) {
    (forall u :: u in s.fleet.objects ==> Ruled(s, u)) && (s.active.Some? ==> InOffice(s, s.active.value))
  }

  /** Steps of the machine side keep names and owners. */
  lemma NamesKept(s: Fleet.State, a: Fleet.Action, u: Uid)
    requires FleetInvariant.Sound(s) && Fleet.Legal(s, a) && u in Fleet.Step(s, a).objects && u in s.objects
    ensures RefOf(Fleet.Step(s, a).objects[u]) == RefOf(s.objects[u])
  {
    if a.Answer? {
      var run' := FleetInvariant.AnswerAdvances(s, a);
      FleetInvariant.ObjectsAdvance(s, a.reply, a.side, run');
    }
  }

  lemma NewObjects(s: Fleet.State, a: Fleet.Action, u: Uid)
    requires FleetInvariant.Sound(s) && Fleet.Legal(s, a) && u in Fleet.Step(s, a).objects && u !in s.objects
    ensures a.Apply? && u == a.machine.uid && Fleet.Step(s, a).objects[u] == a.machine
    ensures a.controlPlane ==> Rules(Fleet.Step(s, a), u, a.cluster)
  {
    if a.Answer? {
      var run' := FleetInvariant.AnswerAdvances(s, a);
      FleetInvariant.ObjectsAdvance(s, a.reply, a.side, run');
    }
  }

  lemma RolesOfMachines(s: State, a: Fleet.Action)
    requires FleetInvariant.Sound(s.fleet) && Roles(s) && Legal(s, Machines(a))
    ensures Roles(Step(s, Machines(a)))
  {
    var t := Step(s, Machines(a));
    MachinesGrow(s.fleet, a);
    forall u | u in t.fleet.objects ensures Ruled(t, u) {
      if u in s.fleet.objects {
        assert Ruled(s, u);
        NamesKept(s.fleet, a, u);
      } else {
        NewObjects(s.fleet, a, u);
      }
    }
  }

  lemma RolesOfAnswer(s: State, reply: Reply, side: Option<Vlan>, run': Run)
    requires Sound(s) && Roles(s) && Answered(s, reply, side, run')
    ensures Roles(Advance(s, reply, side, run'))
  {
    var t := Advance(s, reply, side, run');
    forall u | u in t.fleet.objects ensures Ruled(t, u) {
      assert Ruled(s, u);
    }
    if run'.Inspecting? {
      var i :| 0 <= i < |reply.machines.value| && reply.machines.value[i] == CapiMachine(true, run'.ref);
    }
  }

  lemma RolesMeanwhile(s: State, a: Action)
    requires Sound(s) && Roles(s) && Legal(s, a) && !a.Answer? && !a.Machines?
    ensures Roles(Step(s, a))
  {
    var t := Step(s, a);
    forall u | u in t.fleet.objects ensures Ruled(t, u) {
      assert Ruled(s, u);
    }
  }

  lemma RolesStep(s: State, a: Action)
    requires Sound(s) && FleetInvariant.Sound(s.fleet) && Roles(s) && Legal(s, a)
    ensures Roles(Step(s, a))
  {
    if a.Machines? {
      RolesOfMachines(s, a.action);
    } else if a.Answer? {
      var run' := AnswerAdvances(s, a);
      RolesOfAnswer(s, a.reply, a.side, run');
    } else {
      RolesMeanwhile(s, a);
    }
  }

  lemma {:induction false} AlwaysRoles(actions: seq<Action>)
    requires Execute(actions).Some?
    ensures Roles(Execute(actions).value)
  {
    if actions != [] {
      var n := |actions| - 1;
      AlwaysSound(actions[..n]);
      AlwaysMachinesSettled(actions[..n]);
      AlwaysRoles(actions[..n]);
      RolesStep(Execute(actions[..n]).value, actions[n]);
    }
  }

  // ---- where the host comes from ----

  /** This GetServer reply to a reconcile of u reported the host as the first IP of a running server. */
  predicate ReportedHost(e: Fleet.Event, u: Uid, server: MachineFlow.Server, host: string) {
    Readiness.Ran(e, u, server) && server.ips != [] && server.ips[0] == host
  }

  /** The machine is Ready, for as long as it exists. */
  ghost predicate ReadySince(fleet: Fleet.State, u: Uid) {
    u in fleet.known && (u in fleet.objects ==> fleet.objects[u].status.ready)
  }

  ghost predicate Traced(fleet: Fleet.State, cluster: string, host: string) {
    exists i, u, server ::
      0 <= i < |fleet.log| && ReportedHost(fleet.log[i], u, server, host) && ReadySince(fleet, u) && Rules(fleet, u, cluster)
  }

  ghost predicate Good(s: State, u: Uid, c: Cluster) {
    u in s.owners &&
    (c.status.endpoint.host != "" ==>
       c.status.ready && c.status.endpoint.port == 6443 && Traced(s.fleet, s.owners[u].name, c.status.endpoint.host))
  }

  ghost predicate AllGood(s: State) {
    && (forall u :: u in s.clusters ==> Good(s, u, s.clusters[u]))
    && (s.active.Some? && HasMemory(s.active.value.run) ==> Good(s, s.active.value.uid, s.active.value.run.c))
  }

  /** The IP that is selected from a ready control-plane machine was reported for its server. */
  lemma ChosenIsTraced(s: State, ref: InfraRef, m: Machine)
    requires MachinesSettled(s) && Roles(s) && ref in s.controlPlaneNames && IsObject(s, ref, m) && m.status.ready
    requires EndpointChoice.Select(m.status.addresses) != ""
    ensures Traced(s.fleet, s.controlPlaneNames[ref], EndpointChoice.Select(m.status.addresses))
  {
    assert Readiness.Settled(s.fleet.log, m.uid, s.fleet.objects[m.uid]);
    var i, server :| 0 <= i < |s.fleet.log| && Readiness.Ran(s.fleet.log[i], m.uid, server) &&
                     server.id == m.status.serverID && m.status.addresses == MachineFlow.AddressesOf(server);
    EndpointChoice.SelectsFirstReportedIP(server);
    assert Ruled(s, m.uid);
    assert ReportedHost(s.fleet.log[i], m.uid, server, server.ips[0]);
  }

  lemma MemoryGood(s: State, reply: Reply, side: Option<Vlan>, run': Run)
    requires Sound(s) && MachinesSettled(s) && Roles(s) && AllGood(s) && Answered(s, reply, side, run') && HasMemory(run')
    ensures Good(s, s.active.value.uid, run'.c)
  {
    var run := s.active.value.run;
    if Chosen(run, reply) != "" {
      ChosenIsTraced(s, run.ref, reply.machine.value);
    }
  }

  lemma StoredGood(s: State, reply: Reply, side: Option<Vlan>, run': Run, u: Uid)
    requires s.active.Some? && !s.active.value.run.Finished? && Fits(Pending(s.active.value.run), reply)
    requires AllGood(s) && u in s.clusters
    ensures var t := Advance(s, reply, side, run'); u in t.clusters && Good(t, u, t.clusters[u])
  {
    ClustersAdvance(s, reply, side, run');
    assert Good(s, u, s.clusters[u]);
  }

  lemma AllStoredGood(s: State, reply: Reply, side: Option<Vlan>, run': Run)
    requires s.active.Some? && !s.active.value.run.Finished? && Fits(Pending(s.active.value.run), reply)
    requires AllGood(s) && (HasMemory(run') ==> Good(s, s.active.value.uid, run'.c))
    ensures AllGood(Advance(s, reply, side, run'))
  {
    var t := Advance(s, reply, side, run');
    forall u | u in t.clusters ensures Good(t, u, t.clusters[u]) {
      StoredGood(s, reply, side, run', u);
    }
  }

  lemma GoodAdvance(s: State, reply: Reply, side: Option<Vlan>, run': Run)
    requires Sound(s) && MachinesSettled(s) && Roles(s) && AllGood(s) && Answered(s, reply, side, run')
    ensures AllGood(Advance(s, reply, side, run'))
  {
    if HasMemory(run') {
      MemoryGood(s, reply, side, run');
    }
    AllStoredGood(s, reply, side, run');
  }

  lemma ReadyStays(s: State, a: Action, u: Uid)
    requires FleetInvariant.Sound(s.fleet) && ReadySince(s.fleet, u) && Legal(s, a)
    ensures ReadySince(Step(s, a).fleet, u)
  {
    if a.Machines? {
      if u in s.fleet.objects {
        Permanence.FinalAfter(s.fleet, a.action, u);
      } else {
        Permanence.KnownStays(s.fleet, a.action, u);
      }
    }
  }

  /** What was traced stays traced. */
  lemma TracedStays(s: State, a: Action, cluster: string, host: string)
    requires FleetInvariant.Sound(s.fleet) && Traced(s.fleet, cluster, host) && Legal(s, a)
    ensures Traced(Step(s, a).fleet, cluster, host)
  {
    var t := Step(s, a);
    FleetGrows(s, a);
    var i, u, server :| 0 <= i < |s.fleet.log| && ReportedHost(s.fleet.log[i], u, server, host) &&
                        ReadySince(s.fleet, u) && Rules(s.fleet, u, cluster);
    ReadyStays(s, a, u);
    assert s.fleet.log[i] == t.fleet.log[..|s.fleet.log|][i];
    assert ReportedHost(t.fleet.log[i], u, server, host);
  }

  lemma GoodGrows(s: State, a: Action, u: Uid, c: Cluster)
    requires Good(s, u, c) && u in s.born && FleetInvariant.Sound(s.fleet) && Legal(s, a) && !a.Answer?
    ensures Good(Step(s, a), u, c)
  {
    if c.status.endpoint.host != "" {
      TracedStays(s, a, s.owners[u].name, c.status.endpoint.host);
    }
  }

  lemma StoredMeanwhile(s: State, a: Action, u: Uid)
    requires ClustersSound(s) && AllGood(s) && FleetInvariant.Sound(s.fleet) && Legal(s, a) && !a.Answer?
    requires u in Step(s, a).clusters
    ensures Good(Step(s, a), u, Step(s, a).clusters[u])
  {
    if u in s.clusters {
      GoodGrows(s, a, u, s.clusters[u]);
    }
  }

  lemma GoodMeanwhile(s: State, a: Action)
    requires ClustersSound(s) && (s.active.Some? ==> s.active.value.uid in s.born)
    requires AllGood(s) && FleetInvariant.Sound(s.fleet) && Legal(s, a) && !a.Answer?
    ensures AllGood(Step(s, a))
  {
    var t := Step(s, a);
    forall u | u in t.clusters ensures Good(t, u, t.clusters[u]) {
      StoredMeanwhile(s, a, u);
    }
    if t.active.Some? && HasMemory(t.active.value.run) {
      GoodGrows(s, a, s.active.value.uid, s.active.value.run.c);
    }
  }

  lemma GoodStep(s: State, a: Action)
    requires Sound(s) && MachinesSettled(s) && Roles(s) && AllGood(s) && Legal(s, a)
    ensures AllGood(Step(s, a))
  {
    if a.Answer? {
      var run' := AnswerAdvances(s, a);
      GoodAdvance(s, a.reply, a.side, run');
    } else {
      GoodMeanwhile(s, a);
    }
  }

  lemma {:induction false} AlwaysGood(actions: seq<Action>)
    requires Execute(actions).Some?
    ensures AllGood(Execute(actions).value)
  {
    if actions != [] {
      var n := |actions| - 1;
      AlwaysSound(actions[..n]);
      AlwaysMachinesSettled(actions[..n]);
      AlwaysRoles(actions[..n]);
      AlwaysGood(actions[..n]);
      GoodStep(Execute(actions[..n]).value, actions[n]);
    }
  }

  /**
   * In every run of both controllers, an endpoint that is set belongs to a Ready cluster, has port 6443, and its host is
   * the first IP that GetServer reported, in a reply that a reconcile of a control-plane machine got for its server when
   * that was on, active or running; and that machine belongs to the owner of this cluster, and is Ready for as long as it
   * exists.
   */
  lemma EndpointIsTraced(actions: seq<Action>, c: Uid) returns (i: nat, u: Uid, server: MachineFlow.Server)
    requires Execute(actions).Some? && c in Execute(actions).value.clusters
    requires Execute(actions).value.clusters[c].status.endpoint.host != ""
    ensures var s := Execute(actions).value; var status := s.clusters[c].status;
            && status.ready && status.endpoint.port == 6443
            && i < |s.fleet.log| && ReportedHost(s.fleet.log[i], u, server, status.endpoint.host)
            && ReadySince(s.fleet, u) && c in s.owners && Rules(s.fleet, u, s.owners[c].name)
  {
    AlwaysGood(actions);
    var s := Execute(actions).value;
    assert Good(s, c, s.clusters[c]);
    i, u, server :| 0 <= i < |s.fleet.log| && ReadySince(s.fleet, u) && Rules(s.fleet, u, s.owners[c].name) &&
                    ReportedHost(s.fleet.log[i], u, server, s.clusters[c].status.endpoint.host);
  }

  // ---- written once ----

  predicate Final(p: Cluster, q: Cluster) {
    (p.status.endpoint.host != "" ==> q.status.endpoint == p.status.endpoint) && (p.status.ready ==> q.status.ready)
  }

  lemma FinalMeanwhile(s: State, a: Action, u: Uid)
    requires ClustersSound(s) && Legal(s, a) && !a.Answer? && u in s.clusters && u in Step(s, a).clusters
    ensures Final(s.clusters[u], Step(s, a).clusters[u])
  {}

  lemma FinalStep(s: State, a: Action, u: Uid)
    requires Sound(s) && Legal(s, a) && u in s.clusters && u in Step(s, a).clusters
    ensures Final(s.clusters[u], Step(s, a).clusters[u])
  {
    if a.Answer? {
      var run' := AnswerAdvances(s, a);
      ClustersAdvance(s, a.reply, a.side, run');
    } else {
      FinalMeanwhile(s, a, u);
    }
  }

  lemma BornStays(s: State, a: Action, u: Uid)
    requires Sound(s) && Legal(s, a) && u in s.born
    ensures u in Step(s, a).born && (u !in s.clusters ==> u !in Step(s, a).clusters)
  {}

  lemma {:induction false} AlwaysFinal(front: seq<Action>, back: seq<Action>, u: Uid)
    requires Execute(front + back).Some? && Execute(front).Some? && u in Execute(front).value.clusters
    ensures var s := Execute(front + back).value;
            u in s.born && (u in s.clusters ==> Final(Execute(front).value.clusters[u], s.clusters[u]))
  {
    AlwaysSound(front);
    if back == [] {
      assert front + back == front;
    } else {
      var all, n := front + back, |back| - 1;
      assert all[..|all| - 1] == front + back[..n] && all[|all| - 1] == back[n];
      AlwaysFinal(front, back[..n], u);
      AlwaysSound(front + back[..n]);
      var s := Execute(front + back[..n]).value;
      BornStays(s, back[n], u);
      if u in s.clusters && u in Step(s, back[n]).clusters {
        FinalStep(s, back[n], u);
      }
    }
  }

  /** However a run continues, an endpoint that is set is never changed, and a Ready cluster stays Ready. */
  lemma EndpointIsWrittenOnce(front: seq<Action>, back: seq<Action>, u: Uid)
    requires Execute(front).Some? && Execute(front + back).Some?
    requires u in Execute(front).value.clusters && u in Execute(front + back).value.clusters
    ensures var p, q := Execute(front).value.clusters[u].status, Execute(front + back).value.clusters[u].status;
            (p.endpoint.host != "" ==> q.endpoint == p.endpoint) && (p.ready ==> q.ready)
  {
    AlwaysFinal(front, back, u);
  }
}
