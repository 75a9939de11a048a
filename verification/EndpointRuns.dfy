/** A run of both controllers that sets an endpoint: the machine becomes Ready first, and the cluster finds it. */
module EndpointRuns {
  import opened Prelude
  import opened Text
  import opened Conditions
  import opened Api
  import opened ClusterFlow
  import opened ClusterFleet
  import opened ClusterConditions
  import opened ClusterRuns
  import Cooperation
  import EndpointChoice
  import EndpointHistory
  import Fleet
  import FleetInvariant
  import ServerLeak

  const REF := InfraRef("namespace", "name")

  /** The name of the one machine is that of a control plane of the cluster. */
  ghost predicate Announced(s: State) {
    REF in s.controlPlaneNames && s.controlPlaneNames[REF] == "cluster"
  }

  /** Every step of the machine side that concerns this machine alone is a step of the whole. */
  lemma {:induction false} Lift(s: State, steps: seq<Fleet.Action>) returns (actions: seq<Action>)
    requires Announced(s) && Fleet.ExecuteFrom(s.fleet, steps).Some? && ServerLeak.Calm(steps)
    ensures ExecuteFrom(s, actions) == Some(s.(fleet := Fleet.ExecuteFrom(s.fleet, steps).value))
  {
    if steps == [] {
      actions := [];
    } else {
      var n := |steps| - 1;
      assert forall i :: 0 <= i < n ==> steps[..n][i] == steps[i];
      actions := Lift(s, steps[..n]);
      assert steps[n] == steps[|steps| - 1];
      actions := Take(s, actions, Machines(steps[n]));
    }
  }

  /** In a calm run every object is that machine. */
  lemma {:induction false} CalmNames(steps: seq<Fleet.Action>)
    requires Fleet.Execute(steps).Some? && ServerLeak.Calm(steps)
    ensures var s := Fleet.Execute(steps).value; forall u :: u in s.objects ==> RefOf(s.objects[u]) == REF
    ensures var s := Fleet.Execute(steps).value;
            forall u :: u in s.objects ==> u in s.controlPlanes
  {
    if steps != [] {
      var n := |steps| - 1;
      assert forall i :: 0 <= i < n ==> steps[..n][i] == steps[i];
      CalmNames(steps[..n]);
      FleetInvariant.AlwaysSound(steps[..n]);
      var s, t := Fleet.Execute(steps[..n]).value, Fleet.Execute(steps).value;
      EndpointHistory.MachinesGrow(s, steps[n]);
      forall u | u in t.objects ensures RefOf(t.objects[u]) == REF && u in t.controlPlanes {
        if u in s.objects {
          EndpointHistory.NamesKept(s, steps[n], u);
        } else {
          EndpointHistory.NewObjects(s, steps[n], u);
        }
      }
    }
  }

  /** The cluster, the machine, and nothing on the cluster's side yet. */
  lemma MachineIsThere() returns (actions: seq<Action>)
    ensures Execute(actions).Some?
    ensures var s := Execute(actions).value;
            && Announced(s) && s.active.None? && s.clusters == map[] && s.born == map[] && s.troubles == {}
            && "uid" in s.fleet.objects && s.fleet.objects["uid"].status.ready
            && RefOf(s.fleet.objects["uid"]) == REF && Cooperation.Addressed(s.fleet.objects["uid"])
            && FleetInvariant.ObjectsSound(s.fleet)
  {
    assert ExecuteFrom(EMPTY, []) == Some(EMPTY);
    actions := Take(EMPTY, [], Refer(REF, "cluster"));
    var steps := ServerLeak.ReadyMachine();
    CalmNames(steps);
    FleetInvariant.AlwaysSound(steps);
    var more := Lift(Execute(actions).value, steps);
    Compose(EMPTY, actions, more);
    actions := actions + more;
  }

  /** A Ready cluster without endpoint that can see that machine. */
  ghost predicate Waits(s: State, u: Uid) {
    && Prepared(s, u) && s.clusters[u].status.ready && s.clusters[u].spec.vlan.None?
    && s.clusters[u].status.endpoint.host == "" && Announced(s)
    && "uid" in s.fleet.objects && u !in s.troubles && s.fleet.objects["uid"].status.ready && s.fleet.objects["uid"].uid == "uid"
    && RefOf(s.fleet.objects["uid"]) == REF && Cooperation.Addressed(s.fleet.objects["uid"])
  }

  lemma ClusterIsReady() returns (actions: seq<Action>)
    ensures Execute(actions).Some? && Waits(Execute(actions).value, "uid")
  {
    actions := MachineIsThere();
    actions := Take(EMPTY, actions, Apply(CLUSTER, OWNER));
    var first := AddFinalizer(Execute(actions).value, "uid");
    Compose(EMPTY, actions, first);
    actions := actions + first;
    var second := BecomeReady(Execute(actions).value, "uid");
    Compose(EMPTY, actions, second);
    actions := actions + second;
  }

  lemma AddressIsSelected(m: Machine)
    requires m.status.addresses == [Address(ExternalIP, Cooperation.IP)]
    ensures EndpointChoice.Select(m.status.addresses) == Cooperation.IP != ""
  {}

  /** The machines are listed, and the control plane's object is about to be read. */
  lemma Discover(s: State, u: Uid) returns (actions: seq<Action>)
    requires Waits(s, u)
    ensures ExecuteFrom(s, actions) == Some(s.(active := Some(Active(u, Inspecting(s.clusters[u], REF), false))))
  {
    actions := Locate(s, u);
    actions := Ask(s, actions, MachinesAre(Ok([CapiMachine(true, REF)])));
  }

  /** The next reconcile sets the endpoint; the condition turns False. */
  lemma SetEndpoint(s: State, u: Uid) returns (actions: seq<Action>)
    requires Waits(s, u)
    ensures ExecuteFrom(s, actions).Some?
    ensures var t := ExecuteFrom(s, actions).value;
            && u in t.clusters && t.clusters[u].status.ready && t.clusters[u].status.endpoint == Endpoint(Cooperation.IP, 6443)
            && Reported(t.clusters[u]) == Some(ConditionFalse) && u !in t.troubles
  {
    var c, m := s.clusters[u], s.fleet.objects["uid"];
    AddressIsSelected(m);
    ReportTells(c.(status := c.status.(endpoint := Endpoint(Cooperation.IP, 6443))), ConditionFalse,
                ControlPlaneEndpointSet, "Control plane endpoint set to " + Cooperation.IP + ":6443", 0);
    actions := Discover(s, u);
    actions := Ask(s, actions, InfraIs(Found(m)));
    actions := Close(s, actions);
  }

  /** Some run of both controllers, without a failed reconcile, sets an endpoint, and leaves ClusterReady False by that. */
  lemma EndpointCanBeSet() returns (actions: seq<Action>, u: Uid)
    ensures Execute(actions).Some? && u in Execute(actions).value.clusters
    ensures u !in Execute(actions).value.troubles
    ensures var c := Execute(actions).value.clusters[u];
            c.status.ready && c.status.endpoint == Endpoint(Cooperation.IP, 6443) && Reported(c) == Some(ConditionFalse)
  {
    u := "uid";
    actions := ClusterIsReady();
    var last := SetEndpoint(Execute(actions).value, u);
    Compose(EMPTY, actions, last);
    actions := actions + last;
  }
}
