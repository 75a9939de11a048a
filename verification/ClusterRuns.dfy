/** Runs that reach what the theorems about clusters leave open: Ready that reports False, and one VLAN for two clusters. */
module ClusterRuns {
  import opened Prelude
  import opened Text
  import opened Conditions
  import opened Api
  import opened ClusterFlow
  import opened ClusterFleet
  import opened ClusterInvariant
  import opened ClusterConditions
  import opened VlanOwnership

  const OWNER := OwnerCluster("namespace", "cluster")

  /** The state behind one more action. */
  lemma Take(s: State, start: seq<Action>, a: Action) returns (actions: seq<Action>)
    requires ExecuteFrom(s, start).Some? && Legal(ExecuteFrom(s, start).value, a)
    ensures actions == start + [a]
    ensures ExecuteFrom(s, actions) == Some(Step(ExecuteFrom(s, start).value, a))
  {
    actions := start + [a];
    assert actions[..|actions| - 1] == start;
  }

  /** Calls that only ask change nothing but where the reconcile stands. */
  predicate Asks(run: Run) {
    !run.Finished? && !run.Creating? && !run.Removing? && !run.Saving?
  }

  lemma AskingChangesNothing(s: State, reply: Reply, run': Run)
    requires s.active.Some? && Asks(s.active.value.run) && Fits(Pending(s.active.value.run), reply) && !run'.Finished?
    requires s.active.value.run.Listing? ==> reply.vlans.Ok?
    ensures Advance(s, reply, None, run') == s.(active := Some(Track(s.active.value, run')))
  {
    var t, u := Advance(s, reply, None, run'), s.active.value.uid;
    assert t.log == s.log;
    if u in s.clusters {
      assert t.clusters == s.clusters;
    }
  }

  /** One more answer to a question. */
  lemma Ask(s: State, start: seq<Action>, reply: Reply) returns (actions: seq<Action>)
    requires ExecuteFrom(s, start).Some? && Legal(ExecuteFrom(s, start).value, Answer(reply, 0, None))
    requires var run := ExecuteFrom(s, start).value.active.value.run;
             Asks(run) && (run.Listing? ==> reply.vlans.Ok?) && !Resume(run, reply, 0).Finished?
    ensures var t := ExecuteFrom(s, start).value; var a := t.active.value;
            ExecuteFrom(s, actions) == Some(t.(active := Some(Track(a, Resume(a.run, reply, 0)))))
  {
    var t := ExecuteFrom(s, start).value;
    AskingChangesNothing(t, reply, Resume(t.active.value.run, reply, 0));
    actions := Take(s, start, Answer(reply, 0, None));
  }

  /** The patch at the end of a reconcile succeeds. */
  lemma Close(s: State, start: seq<Action>) returns (actions: seq<Action>)
    requires ExecuteFrom(s, start).Some? && ExecuteFrom(s, start).value.active.Some?
    requires var t := ExecuteFrom(s, start).value; t.active.value.run.Saving? && t.active.value.uid in t.clusters
    ensures var t := ExecuteFrom(s, start).value; var a := t.active.value;
            var q := Patched(t.clusters[a.uid], a.run.c);
            ExecuteFrom(s, actions) ==
            Some(t.(active := None, clusters := t.clusters[a.uid := q],
                    troubles := if a.troubled && a.run.c.status.ready then t.troubles + {a.uid} else t.troubles))
  {
    var t := ExecuteFrom(s, start).value;
    actions := Take(s, start, Answer(Done(None), 0, None));
    assert t.log + [] == t.log;
  }

  /** The cluster as a reconcile finds it: its uid is its key. */
  ghost predicate Resting(s: State, u: Uid) {
    && s.active.None? && u in s.born && u in s.owners && s.owners[u] == OWNER
    && u in s.clusters && s.clusters[u].uid == u && !s.clusters[u].deleting
  }

  lemma ReadingOwns(c: Cluster)
    ensures Resume(Reading, ClusterIs(Found(c)), 0) == Owning(c) && !Fails(Reading, Owning(c))
  {}

  lemma Opened(s: State, u: Uid) returns (actions: seq<Action>)
    requires Resting(s, u)
    ensures ExecuteFrom(s, actions) == Some(s.(active := Some(Active(u, Reading, false))))
  {
    assert ExecuteFrom(s, []) == Some(s);
    actions := Take(s, [], Begin(u));
  }

  lemma Read(s: State, u: Uid) returns (actions: seq<Action>)
    requires Resting(s, u)
    ensures ExecuteFrom(s, actions) == Some(s.(active := Some(Active(u, Owning(s.clusters[u]), false))))
  {
    ReadingOwns(s.clusters[u]);
    actions := Opened(s, u);
    actions := Ask(s, actions, ClusterIs(Found(s.clusters[u])));
  }

  /** A reconcile of u begins: the cluster and its owner are read. */
  lemma Start(s: State, u: Uid) returns (actions: seq<Action>)
    requires Resting(s, u)
    ensures var c := s.clusters[u]; var run := Enter(c, OWNER, 0);
            ExecuteFrom(s, actions) == Some(s.(active := Some(Active(u, run, Fails(Owning(c), run)))))
  {
    actions := Read(s, u);
    actions := Ask(s, actions, OwnerIs(Found(OWNER)));
  }

  /** The first reconcile adds the finalizer. */
  lemma AddFinalizer(s: State, u: Uid) returns (actions: seq<Action>)
    requires Resting(s, u) && !s.clusters[u].finalizer
    ensures ExecuteFrom(s, actions) == Some(s.(clusters := s.clusters[u := s.clusters[u].(finalizer := true)]))
  {
    actions := Start(s, u);
    actions := Close(s, actions);
    assert Patched(s.clusters[u], s.clusters[u].(finalizer := true)) == s.clusters[u].(finalizer := true);
  }

  /** The cluster has its finalizer, and its spec is valid. */
  ghost predicate Prepared(s: State, u: Uid) {
    Resting(s, u) && s.clusters[u].finalizer && SpecErrors(s.clusters[u]) == []
  }

  /** The reconcile of a valid cluster up to its VLAN: its location is available. */
  lemma Locate(s: State, u: Uid) returns (actions: seq<Action>)
    requires Prepared(s, u) && !EnterVlan(s.clusters[u], OWNER, 0).Finished?
    ensures var c := s.clusters[u]; var run := EnterVlan(c, OWNER, 0);
            ExecuteFrom(s, actions) == Some(s.(active := Some(Active(u, run, Fails(Locating(c, OWNER), run)))))
  {
    var c := s.clusters[u];
    actions := Start(s, u);
    assert Enter(c, OWNER, 0) == Locating(c, OWNER);
    actions := Ask(s, actions, RegionsAre(Ok([c.spec.location])));
  }

  // ---- Ready that reports False ----

  /** A reconcile makes a cluster without VLAN Ready. */
  lemma BecomeReady(s: State, u: Uid) returns (actions: seq<Action>)
    requires Prepared(s, u) && s.clusters[u].spec.vlan.None? && !s.clusters[u].status.ready
    ensures ExecuteFrom(s, actions).Some?
    ensures var t := ExecuteFrom(s, actions).value;
            && Prepared(t, u) && t.clusters[u].status.ready && Reported(t.clusters[u]) == Some(ConditionTrue)
            && t.clusters[u].spec.vlan.None? && t.clusters[u].status.endpoint == s.clusters[u].status.endpoint
            && t.fleet == s.fleet && t.controlPlaneNames == s.controlPlaneNames && t.troubles == s.troubles
  {
    var c := s.clusters[u];
    ReportTells(c.(status := c.status.(ready := true)), ConditionTrue, ClusterIsReady, "Cluster infrastructure is ready", 0);
    actions := Locate(s, u);
    actions := Close(s, actions);
  }

  /** A reconcile that cannot list the regions turns the condition of a Ready cluster to False. */
  lemma FailOnce(s: State, u: Uid) returns (actions: seq<Action>)
    requires Prepared(s, u) && s.clusters[u].status.ready
    ensures ExecuteFrom(s, actions).Some?
    ensures var t := ExecuteFrom(s, actions).value;
            && Prepared(t, u) && t.clusters[u].status.ready && Reported(t.clusters[u]) == Some(ConditionFalse)
            && t.clusters[u].status.endpoint == s.clusters[u].status.endpoint
  {
    var c := s.clusters[u];
    var error := "failed to get available regions: " + "";
    ReportTells(c, ConditionFalse, ClusterProvisionFailed, error, 0);
    actions := Start(s, u);
    actions := Ask(s, actions, RegionsAre(Err("")));
    assert ExecuteFrom(s, actions).value.active.value.run == Abort(c, error, 0);
    actions := Close(s, actions);
  }

  const CLUSTER := Cluster("uid", "namespace", "name", false, false, ClusterSpec("site", Some("project"), None),
                           ClusterStatus(false, Endpoint("", 0), None, None, []))

  lemma {:induction false} Compose(s: State, a: seq<Action>, b: seq<Action>)
    requires ExecuteFrom(s, a).Some?
    ensures ExecuteFrom(s, a + b) == ExecuteFrom(ExecuteFrom(s, a).value, b)
  {
    if b == [] {
      assert a + b == a;
    } else {
      var n := |b| - 1;
      Compose(s, a, b[..n]);
      assert (a + b)[..|a + b| - 1] == a + b[..n] && (a + b)[|a + b| - 1] == b[n];
    }
  }

  lemma AppliedAlone() returns (actions: seq<Action>)
    ensures ExecuteFrom(EMPTY, actions).Some?
    ensures var t := ExecuteFrom(EMPTY, actions).value;
            && Prepared(t, "uid") && t.clusters["uid"].spec.vlan.None? && !t.clusters["uid"].status.ready
            && t.clusters["uid"].status.endpoint.host == ""
  {
    assert ExecuteFrom(EMPTY, []) == Some(EMPTY);
    actions := Take(EMPTY, [], Apply(CLUSTER, OWNER));
    var s := ExecuteFrom(EMPTY, actions).value;
    var more := AddFinalizer(s, "uid");
    Compose(EMPTY, actions, more);
    actions := actions + more;
  }

  /** Some run, without any lost patch, makes a cluster Ready for good and leaves its ClusterReady condition False. */
  lemma ReadyCanReportFalse() returns (actions: seq<Action>, u: Uid)
    ensures Execute(actions).Some? && u in Execute(actions).value.clusters
    ensures var c := Execute(actions).value.clusters[u];
            c.status.ready && c.status.endpoint.host == "" && Reported(c) == Some(ConditionFalse)
  {
    u := "uid";
    actions := AppliedAlone();
    var second := BecomeReady(Execute(actions).value, u);
    Compose(EMPTY, actions, second);
    actions := actions + second;
    var third := FailOnce(Execute(actions).value, u);
    Compose(EMPTY, actions, third);
    actions := actions + third;
  }

  // ---- one VLAN for two clusters ----

  /** A cluster that has not looked for its VLAN yet. */
  ghost predicate Untouched(s: State, u: Uid) {
    Prepared(s, u) && OwnsVlan(s.clusters[u]) && s.clusters[u].status.vlanID.None? && !s.clusters[u].status.ready
  }

  function RecordFor(c: Cluster, vid: int): Record
    requires OwnsVlan(c)
  {
    Record(Description(c), vid)
  }

  /** No VLAN is listed, so the cluster is about to create one. */
  lemma Miss(s: State, u: Uid) returns (actions: seq<Action>)
    requires Untouched(s, u) && s.vlans == {}
    ensures var c := s.clusters[u];
            ExecuteFrom(s, actions) == Some(s.(active := Some(Active(u, Creating(c, OWNER, RequestFor(c)), false))))
  {
    actions := Locate(s, u);
    actions := Ask(s, actions, VlansAre(Ok([])));
  }

  /** The VLAN is created. */
  lemma Post(s: State, start: seq<Action>, v: Vlan) returns (actions: seq<Action>)
    requires ExecuteFrom(s, start).Some? && Legal(ExecuteFrom(s, start).value, Answer(VlanIs(Ok(v)), 0, None))
    requires var a := ExecuteFrom(s, start).value.active.value;
             a.run.Creating? && !Resume(a.run, VlanIs(Ok(v)), 0).Finished?
    ensures var t := ExecuteFrom(s, start).value; var a := t.active.value;
            ExecuteFrom(s, actions) ==
            Some(t.(active := Some(Track(a, EnterReady(WithVlan(a.run.c, v), a.run.owner, 0))), vlans := t.vlans + {v.id},
                    issued := t.issued[v.id := RecordOf(v)], log := t.log + [Made(a.uid, v.id)]))
  {
    var t := ExecuteFrom(s, start).value;
    actions := Take(s, start, Answer(VlanIs(Ok(v)), 0, None));
    assert ExecuteFrom(s, actions).value.clusters == t.clusters;
  }

  /** A reconcile of the first cluster makes its VLAN. */
  lemma MakeVlan(s: State, u: Uid, vid: int) returns (actions: seq<Action>)
    requires Untouched(s, u) && s.vlans == {} && "v" !in s.issued
    ensures ExecuteFrom(s, actions).Some?
    ensures var t := ExecuteFrom(s, actions).value;
            && u in t.clusters && t.clusters[u].status.vlanID == Some("v") && t.active.None?
            && t.born == s.born && t.owners == s.owners
            && t.vlans == {"v"} && t.issued == s.issued["v" := RecordFor(s.clusters[u], vid)]
            && t.clusters[u].status.vlanVID == Some(vid)
            && t.clusters == s.clusters[u := t.clusters[u]]
  {
    var c := s.clusters[u];
    var v := Vlan("v", Description(c), vid);
    actions := Miss(s, u);
    actions := Post(s, actions, v);
    actions := Close(s, actions);
  }

  /** A reconcile of the second cluster finds it under the same description, and takes it. */
  lemma ReuseVlan(s: State, u: Uid) returns (actions: seq<Action>)
    requires Untouched(s, u) && s.vlans == {"v"} && "v" in s.issued && s.issued["v"] == RecordFor(s.clusters[u], 1)
    ensures ExecuteFrom(s, actions).Some?
    ensures var t := ExecuteFrom(s, actions).value;
            && u in t.clusters && t.clusters[u].status.vlanID == Some("v") && t.born == s.born && t.owners == s.owners
            && t.clusters == s.clusters[u := t.clusters[u]]
  {
    var c := s.clusters[u];
    var listed := [Vlan("v", Description(c), 1)];
    assert listed[0].id == "v" && RecordOf(listed[0]) == RecordFor(c, 1);
    actions := Locate(s, u);
    actions := Ask(s, actions, VlansAre(Ok(listed)));
    actions := Close(s, actions);
  }

  /** Two clusters that may be applied side by side, each with a valid spec and a VLAN of its own. */
  ghost predicate Pair(c: Cluster, d: Cluster) {
    && Blank(c) && Blank(d) && c.uid != d.uid && c.namespace == d.namespace && c.name != d.name
    && OwnsVlan(c) && OwnsVlan(d) && SpecErrors(c) == [] && SpecErrors(d) == []
  }

  lemma BothApplied(c: Cluster, d: Cluster) returns (actions: seq<Action>)
    requires Pair(c, d)
    ensures Execute(actions).Some?
    ensures var s := Execute(actions).value;
            && s.clusters == s.born == map[c.uid := c, d.uid := d] && s.owners == map[c.uid := OWNER, d.uid := OWNER]
            && s.active.None? && s.vlans == {} && s.issued == map[]
  {
    assert ExecuteFrom(EMPTY, []) == Some(EMPTY);
    actions := Take(EMPTY, [], Apply(c, OWNER));
    actions := Take(EMPTY, actions, Apply(d, OWNER));
  }

  /** Both are applied, and have their finalizers. */
  lemma BothPrepared(c: Cluster, d: Cluster) returns (actions: seq<Action>)
    requires Pair(c, d)
    ensures Execute(actions).Some?
    ensures var s := Execute(actions).value;
            && s.clusters == map[c.uid := c.(finalizer := true), d.uid := d.(finalizer := true)]
            && s.born == map[c.uid := c, d.uid := d] && s.owners == map[c.uid := OWNER, d.uid := OWNER]
            && s.active.None? && s.vlans == {} && s.issued == map[]
  {
    actions := BothApplied(c, d);
    var s := Execute(actions).value;
    var first := AddFinalizer(s, c.uid);
    Compose(EMPTY, actions, first);
    actions := actions + first;
    var second := AddFinalizer(Execute(actions).value, d.uid);
    Compose(EMPTY, actions, second);
    actions := actions + second;
  }

  /** The two clusters have the same VLAN on record. */
  ghost predicate Share(s: State, c: Cluster, d: Cluster) {
    && c.uid in s.clusters && d.uid in s.clusters && c.uid in s.born && d.uid in s.born
    && s.born[c.uid] == c && s.born[d.uid] == d
    && s.clusters[c.uid].status.vlanID.Some? && s.clusters[c.uid].status.vlanID == s.clusters[d.uid].status.vlanID
  }

  lemma SharingRun(c: Cluster, d: Cluster) returns (actions: seq<Action>)
    requires Pair(c, d) && Description(c) == Description(d)
    ensures Execute(actions).Some? && Share(Execute(actions).value, c, d)
  {
    actions := BothPrepared(c, d);
    var first := MakeVlan(Execute(actions).value, c.uid, 1);
    Compose(EMPTY, actions, first);
    actions := actions + first;
    var second := ReuseVlan(Execute(actions).value, d.uid);
    Compose(EMPTY, actions, second);
    actions := actions + second;
  }

  /**
   * Exactly when two clusters of one namespace, each with a VLAN of its own, can ever have the same VLAN on record: when
   * one shifts into the other.
   */
  lemma SharingIsShifting(c: Cluster, d: Cluster)
    requires Pair(c, d)
    ensures (exists actions :: Execute(actions).Some? && Share(Execute(actions).value, c, d)) <==>
            Shifts(c, d) || Shifts(d, c)
  {
    DescriptionsCollide(c, d);
    if Shifts(c, d) || Shifts(d, c) {
      var actions := SharingRun(c, d);
    } else {
      forall actions | Execute(actions).Some? ensures !Share(Execute(actions).value, c, d) {
        if Share(Execute(actions).value, c, d) {
          AlwaysSound(actions);
          VlansAreNotShared(actions, c.uid, d.uid);
        }
      }
    }
  }

  // ---- a requested VID ----

  lemma PreparedAlone(c: Cluster) returns (actions: seq<Action>)
    requires Blank(c) && SpecErrors(c) == []
    ensures Execute(actions).Some?
    ensures var s := Execute(actions).value;
            && Prepared(s, c.uid) && s.clusters[c.uid] == c.(finalizer := true) && s.born == map[c.uid := c]
            && s.vlans == {} && s.issued == map[]
  {
    assert ExecuteFrom(EMPTY, []) == Some(EMPTY);
    actions := Take(EMPTY, [], Apply(c, OWNER));
    var more := AddFinalizer(Execute(actions).value, c.uid);
    Compose(EMPTY, actions, more);
    actions := actions + more;
  }

  /** Whatever VID a cluster asks for, or whether it does: some run gives it a VLAN with any other, and records that. */
  lemma AnyVidIsRecorded(c: Cluster, vid: int) returns (actions: seq<Action>)
    requires Blank(c) && OwnsVlan(c) && SpecErrors(c) == []
    ensures Execute(actions).Some?
    ensures var s := Execute(actions).value;
            && c.uid in s.born && s.born[c.uid] == c
            && c.uid in s.clusters && s.clusters[c.uid].status.vlanVID == Some(vid)
  {
    actions := PreparedAlone(c);
    var more := MakeVlan(Execute(actions).value, c.uid, vid);
    Compose(EMPTY, actions, more);
    actions := actions + more;
  }
}
