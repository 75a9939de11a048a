/** What the ClusterReady condition says, over every run: less than the Ready status does. */
module ClusterConditions {
  import opened Prelude
  import opened Text
  import opened Conditions
  import opened Api
  import opened ClusterFlow
  import opened ClusterSteps
  import opened ClusterFleet
  import opened ClusterInvariant

  /** The status of the ClusterReady condition. */
  function Reported(c: Cluster): Option<Truth> {
    match Lookup(c.status.conditions, ClusterReady)
    case None => None
    case Some(r) => Some(r.status)
  }

  lemma ReportTells(c: Cluster, status: Truth, reason: Reason, message: string, now: int)
    ensures Reported(Report(c, status, reason, message, now)) == Some(status)
  {
    PutReports(c.status.conditions, Condition(ClusterReady, status, reason, message, 0, now), RewriteOnChange);
  }

  /** An answer that becomes Ready reports True; one that fails or sets the endpoint reports False; others say nothing. */
  ghost predicate Tells(run: Run, c: Cluster, run': Run)
    requires HasMemory(run')
  {
    var d := run'.c;
    if Fails(run, run') then
      Reported(d) == Some(ConditionFalse) && d.status.ready == c.status.ready && d.status.endpoint == c.status.endpoint
    else if d.status.ready != c.status.ready then
      Reported(d) == Some(ConditionTrue) && d.status.ready && d.status.endpoint == c.status.endpoint
    else if d.status.endpoint != c.status.endpoint then
      Reported(d) == Some(ConditionFalse) && d.status.endpoint.host != ""
    else d.status.conditions == c.status.conditions
  }

  lemma AbortTells(run: Run, c: Cluster, error: string, now: int)
    ensures Tells(run, c, Abort(c, error, now))
  {
    ReportTells(c, ConditionFalse, ClusterProvisionFailed, error, now);
  }

  /** Memory on which only the VLAN fields may differ from those that the reconcile held before. */
  predicate SameReport(c: Cluster, d: Cluster) {
    d.status.conditions == c.status.conditions && d.status.ready == c.status.ready && d.status.endpoint == c.status.endpoint
  }

  lemma ReadyTells(run: Run, c: Cluster, d: Cluster, o: OwnerCluster, now: int)
    requires !run.Owning? && SameReport(c, d)
    ensures Tells(run, c, EnterReady(d, o, now))
  {
    ReportTells(d.(status := d.status.(ready := true)), ConditionTrue, ClusterIsReady, "Cluster infrastructure is ready", now);
  }

  lemma CreateTells(run: Run, c: Cluster, o: OwnerCluster, now: int)
    requires !run.Owning?
    ensures Tells(run, c, EnterCreate(c, o, now))
  {
    AbortTells(run, c, VlanError("projectRef is required for VLAN creation"), now);
    AbortTells(run, c, CreateError("projectID is required"), now);
    AbortTells(run, c, CreateError("site is required"), now);
  }

  lemma VlanTells(run: Run, c: Cluster, o: OwnerCluster, now: int)
    requires !run.Owning?
    ensures Tells(run, c, EnterVlan(c, o, now))
  {
    if c.spec.vlan.None? {
      ReadyTells(run, c, c, o, now);
    } else if c.spec.vlan.value.existing.Some? {
      ReadyTells(run, c, c.(status := c.status.(vlanID := c.spec.vlan.value.existing)), o, now);
    } else if c.status.vlanID.None? {
      CreateTells(run, c, o, now);
    }
  }

  /** What an answer tells, in the conversation. */
  ghost predicate Told(run: Run, reply: Reply, now: int)
    requires HasMemory(run) && Fits(Pending(run), reply)
  {
    var run' := Resume(run, reply, now);
    HasMemory(run') ==> Tells(run, run.c, run')
  }

  lemma OwnerTells(run: Run, reply: Reply, now: int)
    requires run.Owning? && Fits(Pending(run), reply)
    ensures Told(run, reply, now)
  {
    ReportTells(run.c, ConditionFalse, InvalidClusterConfig, "validation failed: " + Join(SpecErrors(run.c), ", "), now);
  }

  lemma LocateTells(run: Run, reply: Reply, now: int)
    requires run.Locating? && Fits(Pending(run), reply)
    ensures Told(run, reply, now)
  {
    match reply.regions
    case Err(e) => AbortTells(run, run.c, "failed to get available regions: " + e, now);
    case Ok(regions) =>
      if run.c.spec.location in regions {
        VlanTells(run, run.c, run.owner, now);
      } else {
        AbortTells(run, run.c, NotAvailable(run.c.spec.location, regions), now);
      }
  }

  lemma FetchTells(run: Run, reply: Reply, now: int)
    requires run.Fetching? && Fits(Pending(run), reply)
    ensures Told(run, reply, now)
  {
    match reply.vlan
    case Err(e) => AbortTells(run, run.c, VlanError("failed to get existing VLAN: " + e), now);
    case Ok(v) => ReadyTells(run, run.c, run.c.(status := run.c.status.(vlanVID := Some(v.vid))), run.owner, now);
  }

  lemma VerifyTells(run: Run, reply: Reply, now: int)
    requires run.Verifying? && Fits(Pending(run), reply)
    ensures Told(run, reply, now)
  {
    match reply.vlan
    case Err(_) => CreateTells(run, run.c, run.owner, now);
    case Ok(v) =>
      ReadyTells(run, run.c, run.c, run.owner, now);
      ReadyTells(run, run.c, run.c.(status := run.c.status.(vlanVID := Some(v.vid))), run.owner, now);
  }

  lemma ListTells(run: Run, reply: Reply, now: int)
    requires run.Listing? && Fits(Pending(run), reply)
    ensures Told(run, reply, now)
  {
    if Adopted(run, reply).Some? {
      ReadyTells(run, run.c, WithVlan(run.c, Adopted(run, reply).value), run.owner, now);
    }
  }

  lemma PostTells(run: Run, reply: Reply, now: int)
    requires run.Creating? && Fits(Pending(run), reply)
    ensures Told(run, reply, now)
  {
    match reply.vlan
    case Err(e) => AbortTells(run, run.c, CreateError(e), now);
    case Ok(v) => ReadyTells(run, run.c, WithVlan(run.c, v), run.owner, now);
  }

  lemma InspectTells(run: Run, reply: Reply, now: int)
    requires run.Inspecting? && Fits(Pending(run), reply) && Shape(run)
    ensures Told(run, reply, now)
  {
    if Chosen(run, reply) != "" {
      ReportTells(run.c.(status := run.c.status.(endpoint := Endpoint(Chosen(run, reply), 6443))), ConditionFalse,
                  ControlPlaneEndpointSet, "Control plane endpoint set to " + Chosen(run, reply) + ":6443", now);
    }
  }

  lemma OtherTells(run: Run, reply: Reply, now: int)
    requires (run.Discovering? || run.Removing? || run.Saving?) && Fits(Pending(run), reply)
    ensures Told(run, reply, now)
  {}

  lemma EveryAnswerTells(run: Run, reply: Reply, now: int)
    requires HasMemory(run) && Fits(Pending(run), reply) && Shape(run)
    ensures Told(run, reply, now)
  {
    match run
    case Owning(_) => OwnerTells(run, reply, now);
    case Locating(_, _) => LocateTells(run, reply, now);
    case Fetching(_, _, _) => FetchTells(run, reply, now);
    case Verifying(_, _, _) => VerifyTells(run, reply, now);
    case Listing(_, _, _) => ListTells(run, reply, now);
    case Creating(_, _, _) => PostTells(run, reply, now);
    case Inspecting(_, _) => InspectTells(run, reply, now);
    case Discovering(_, _) | Removing(_, _) | Saving(_, _) => OtherTells(run, reply, now);
  }

  // ---- over runs ----

  /** A Ready cluster reports True, unless it has an endpoint or has been in trouble; others do not report True. */
  ghost predicate Honest(c: Cluster, trouble: bool) {
    && (c.status.ready ==>
          Reported(c) == Some(if c.status.endpoint.host == "" && !trouble then ConditionTrue else ConditionFalse))
    && (!c.status.ready ==> Reported(c) != Some(ConditionTrue) && c.status.endpoint.host == "")
  }

  ghost predicate MemoryHonest(s: State, a: Active) {
    && (a.troubled ==> a.run.Saving?)
    && (HasMemory(a.run) ==>
          Honest(a.run.c, a.uid in s.troubles || a.troubled) && (a.uid in s.troubles ==> a.run.c.status.ready))
  }

  ghost predicate AllHonest(s: State) {
    && (forall u :: u in s.clusters ==>
          Honest(s.clusters[u], u in s.troubles) && (u in s.troubles ==> s.clusters[u].status.ready))
    && (s.active.Some? ==> MemoryHonest(s, s.active.value))
    && s.troubles <= s.born.Keys
  }

  /** The memory behind an answer, by what the answer tells. */
  lemma MemoryStaysHonest(a: Active, trouble: bool, reply: Reply, run': Run)
    requires HasMemory(a.run) && Fits(Pending(a.run), reply) && Shape(a.run) && Change(a.run, reply, run') && HasMemory(run')
    requires Tells(a.run, a.run.c, run') && (a.troubled ==> a.run.Saving?)
    requires Honest(a.run.c, trouble || a.troubled) && (trouble ==> a.run.c.status.ready)
    ensures var b := Track(a, run');
            (b.troubled ==> run'.Saving?) && Honest(run'.c, trouble || b.troubled) && (trouble ==> run'.c.status.ready)
  {}

  lemma MemoryHonestAdvance(s: State, a: Action, run': Run)
    requires Sound(s) && AllHonest(s) && Legal(s, a) && a.Answer? && run' == Resume(s.active.value.run, a.reply, a.now)
    requires Answered(s, a.reply, a.side, run') && !run'.Finished?
    ensures MemoryHonest(Step(s, a), Track(s.active.value, run'))
  {
    var b := s.active.value;
    if !b.run.Reading? {
      EveryAnswerTells(b.run, a.reply, a.now);
      MemoryStaysHonest(b, b.uid in s.troubles, a.reply, run');
    }
  }

  /** What is saved is as honest as the memory, with the trouble that is saved along. */
  lemma SavedHonest(a: Active, p: Cluster, trouble: bool, reply: Reply)
    requires !a.run.Finished? && Fits(Pending(a.run), reply)
    requires Honest(p, trouble) && (trouble ==> p.status.ready)
    requires a.run.Saving? ==> Honest(a.run.c, trouble || a.troubled) && (trouble ==> a.run.c.status.ready)
    ensures var q, trouble' := Stored(a.run, p, reply), trouble || SavesTrouble(a, reply);
            Honest(q, trouble') && (trouble' ==> q.status.ready)
  {}

  lemma StoredHonest(s: State, reply: Reply, side: Option<Vlan>, run': Run, u: Uid)
    requires s.active.Some? && !s.active.value.run.Finished? && Fits(Pending(s.active.value.run), reply)
    requires AllHonest(s) && u in s.clusters
    ensures var t := Advance(s, reply, side, run');
            u in t.clusters && Honest(t.clusters[u], u in t.troubles) && (u in t.troubles ==> t.clusters[u].status.ready)
  {
    ClustersAdvance(s, reply, side, run');
    if u == s.active.value.uid {
      SavedHonest(s.active.value, s.clusters[u], u in s.troubles, reply);
    }
  }

  lemma AnswerHonest(s: State, a: Action)
    requires Sound(s) && AllHonest(s) && Legal(s, a) && a.Answer?
    ensures AllHonest(Step(s, a))
  {
    var run' := Resume(s.active.value.run, a.reply, a.now);
    EveryChange(s.active.value.run, a.reply, a.now);
    var t := Step(s, a);
    assert t == Advance(s, a.reply, a.side, run');
    ClustersAdvance(s, a.reply, a.side, run');
    forall u | u in t.clusters
      ensures Honest(t.clusters[u], u in t.troubles) && (u in t.troubles ==> t.clusters[u].status.ready)
    {
      StoredHonest(s, a.reply, a.side, run', u);
    }
    if !run'.Finished? {
      MemoryHonestAdvance(s, a, run');
    }
  }

  lemma ClusterMeanwhile(s: State, a: Action, u: Uid)
    requires ClustersSound(s) && AllHonest(s) && Legal(s, a) && !a.Answer? && u in Step(s, a).clusters
    ensures var t := Step(s, a);
            Honest(t.clusters[u], u in t.troubles) && (u in t.troubles ==> t.clusters[u].status.ready)
  {}

  lemma HonestMeanwhile(s: State, a: Action)
    requires ClustersSound(s) && AllHonest(s) && Legal(s, a) && !a.Answer?
    ensures AllHonest(Step(s, a))
  {
    forall u | u in Step(s, a).clusters
      ensures var t := Step(s, a);
              Honest(t.clusters[u], u in t.troubles) && (u in t.troubles ==> t.clusters[u].status.ready)
    {
      ClusterMeanwhile(s, a, u);
    }
  }

  lemma HonestStep(s: State, a: Action)
    requires Sound(s) && AllHonest(s) && Legal(s, a)
    ensures AllHonest(Step(s, a))
  {
    if a.Answer? {
      AnswerHonest(s, a);
    } else {
      HonestMeanwhile(s, a);
    }
  }

  lemma {:induction false} AlwaysHonest(actions: seq<Action>)
    requires Execute(actions).Some?
    ensures AllHonest(Execute(actions).value)
  {
    if actions != [] {
      var n := |actions| - 1;
      AlwaysSound(actions[..n]);
      AlwaysHonest(actions[..n]);
      HonestStep(Execute(actions[..n]).value, actions[n]);
    }
  }

  /**
   * In every run, ClusterReady is True if and only if the cluster is Ready, has no endpoint yet, and has never saved a
   * failed reconcile while Ready; a Ready cluster for which this does not hold reports False.
   */
  lemma ClusterReadyIsTrue(actions: seq<Action>, u: Uid)
    requires Execute(actions).Some? && u in Execute(actions).value.clusters
    ensures var s := Execute(actions).value; var c := s.clusters[u];
            && (Reported(c) == Some(ConditionTrue) <==>
                  c.status.ready && c.status.endpoint.host == "" && u !in s.troubles)
            && (c.status.ready && Reported(c) != Some(ConditionTrue) ==> Reported(c) == Some(ConditionFalse))
  {
    AlwaysHonest(actions);
  }
}
