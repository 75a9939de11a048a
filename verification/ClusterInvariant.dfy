/** How the in-memory cluster of a running reconcile relates to the persisted one, in every run. */
module ClusterInvariant {
  import opened Prelude
  import opened Api
  import opened ClusterFlow
  import opened ClusterSteps
  import opened ClusterFleet

  predicate HasMemory(run: Run) {
    !run.Reading? && !run.Finished?
  }

  /** The same cluster, as it was applied: its name and its spec are fixed. */
  ghost predicate BornAs(b: Cluster, c: Cluster) {
    c.uid == b.uid && c.namespace == b.namespace && c.name == b.name && c.spec == b.spec
  }

  /** What is on record stays on record in memory. */
  ghost predicate Matches(c: Cluster, p: Cluster) {
    (p.status.endpoint.host != "" ==> c.status.endpoint == p.status.endpoint) && (p.status.ready ==> c.status.ready)
  }

  ghost predicate ClustersSound(s: State) {
    && s.vlans <= s.issued.Keys && "" !in s.issued
    && (forall u :: u in s.clusters ==> u in s.born && BornAs(s.born[u], s.clusters[u]))
    && (forall u :: u in s.born ==> s.born[u].uid == u) && s.owners.Keys == s.born.Keys
  }

  ghost predicate NamesUnique(s: State) {
    forall u, v :: u in s.clusters && v in s.clusters && u != v ==>
      s.clusters[u].namespace != s.clusters[v].namespace || s.clusters[u].name != s.clusters[v].name
  }

  ghost predicate ActiveSound(s: State, a: Active) {
    && a.uid in s.born && !a.run.Finished? && Shape(a.run)
    && (HasMemory(a.run) ==>
          BornAs(s.born[a.uid], a.run.c) && (a.uid in s.clusters ==> Matches(a.run.c, s.clusters[a.uid])))
  }

  ghost predicate Sound(s: State) {
    ClustersSound(s) && NamesUnique(s) && (s.active.Some? ==> ActiveSound(s, s.active.value))
  }

  ghost predicate Answered(s: State, reply: Reply, side: Option<Vlan>, run': Run) {
    && s.active.Some? && !s.active.value.run.Finished?
    && var run := s.active.value.run;
    && Fits(Pending(run), reply) && Truthful(s, s.active.value.uid, run, reply)
    && SideEffect(s, Pending(run), reply, side) && Change(run, reply, run')
  }

  lemma AnswerAdvances(s: State, a: Action) returns (run': Run)
    requires Sound(s) && Legal(s, a) && a.Answer?
    ensures Answered(s, a.reply, a.side, run') && Step(s, a) == Advance(s, a.reply, a.side, run')
  {
    run' := Resume(s.active.value.run, a.reply, a.now);
    EveryChange(s.active.value.run, a.reply, a.now);
  }

  lemma ClustersAdvance(s: State, reply: Reply, side: Option<Vlan>, run': Run)
    requires s.active.Some? && !s.active.value.run.Finished? && Fits(Pending(s.active.value.run), reply)
    ensures var a, t := s.active.value, Advance(s, reply, side, run');
            (forall u :: u in t.clusters <==> u in s.clusters) &&
            forall u :: u in s.clusters ==>
              t.clusters[u] == if u == a.uid then Stored(a.run, s.clusters[u], reply) else s.clusters[u]
  {}

  lemma MemoryMatches(run: Run, p: Cluster, reply: Reply, run': Run)
    requires !run.Finished? && Shape(run) && Fits(Pending(run), reply) && Change(run, reply, run') && HasMemory(run')
    requires if run.Reading? then reply.cluster == Found(p) else Matches(run.c, p)
    ensures Matches(run'.c, Stored(run, p, reply))
  {}

  lemma ClustersSoundAdvance(s: State, reply: Reply, side: Option<Vlan>, run': Run)
    requires s.active.Some? && !s.active.value.run.Finished? && Fits(Pending(s.active.value.run), reply)
    requires ClustersSound(s)
    requires var made := Created(Pending(s.active.value.run), reply, side);
             made.Some? ==> FreshVlan(s, made.value, made.value.description)
    ensures ClustersSound(Advance(s, reply, side, run'))
  {
    var t := Advance(s, reply, side, run');
    ClustersAdvance(s, reply, side, run');
    forall u | u in t.clusters ensures u in t.born && BornAs(t.born[u], t.clusters[u]) {
      assert BornAs(s.born[u], s.clusters[u]);
    }
  }

  lemma NamesAdvance(s: State, reply: Reply, side: Option<Vlan>, run': Run)
    requires s.active.Some? && !s.active.value.run.Finished? && Fits(Pending(s.active.value.run), reply)
    requires NamesUnique(s)
    ensures NamesUnique(Advance(s, reply, side, run'))
  {
    var t := Advance(s, reply, side, run');
    ClustersAdvance(s, reply, side, run');
    assert forall u :: u in t.clusters ==>
      t.clusters[u].namespace == s.clusters[u].namespace && t.clusters[u].name == s.clusters[u].name;
  }

  lemma ActiveAdvance(s: State, reply: Reply, side: Option<Vlan>, run': Run)
    requires Sound(s) && Answered(s, reply, side, run') && !run'.Finished?
    ensures ActiveSound(Advance(s, reply, side, run'), Track(s.active.value, run'))
  {
    var a := s.active.value;
    ClustersAdvance(s, reply, side, run');
    if a.uid in s.clusters {
      MemoryMatches(a.run, s.clusters[a.uid], reply, run');
    }
  }

  lemma MadeIsFresh(s: State, reply: Reply, side: Option<Vlan>, run': Run)
    requires Answered(s, reply, side, run') && Created(Pending(s.active.value.run), reply, side).Some?
    ensures var a, made := s.active.value, Created(Pending(s.active.value.run), reply, side).value;
            a.run.Creating? && FreshVlan(s, made, a.run.request.description)
  {}

  lemma SoundAdvance(s: State, reply: Reply, side: Option<Vlan>, run': Run)
    requires Sound(s) && Answered(s, reply, side, run')
    ensures Sound(Advance(s, reply, side, run'))
  {
    if Created(Pending(s.active.value.run), reply, side).Some? {
      MadeIsFresh(s, reply, side, run');
    }
    ClustersSoundAdvance(s, reply, side, run');
    NamesAdvance(s, reply, side, run');
    if !run'.Finished? {
      ActiveAdvance(s, reply, side, run');
    }
  }

  lemma NamesMeanwhile(s: State, a: Action)
    requires NamesUnique(s) && Legal(s, a) && !a.Answer?
    ensures NamesUnique(Step(s, a))
  {}

  lemma ClustersMeanwhile(s: State, a: Action)
    requires ClustersSound(s) && Legal(s, a) && !a.Answer?
    ensures ClustersSound(Step(s, a))
  {}

  lemma ActiveMeanwhile(s: State, a: Action)
    requires Sound(s) && Legal(s, a) && !a.Answer? && Step(s, a).active.Some?
    ensures ActiveSound(Step(s, a), Step(s, a).active.value)
  {}

  lemma SoundMeanwhile(s: State, a: Action)
    requires Sound(s) && Legal(s, a) && !a.Answer?
    ensures Sound(Step(s, a))
  {
    ClustersMeanwhile(s, a);
    NamesMeanwhile(s, a);
    if Step(s, a).active.Some? {
      ActiveMeanwhile(s, a);
    }
  }

  lemma SoundStep(s: State, a: Action)
    requires Sound(s) && Legal(s, a)
    ensures Sound(Step(s, a))
  {
    if a.Answer? {
      var run' := AnswerAdvances(s, a);
      SoundAdvance(s, a.reply, a.side, run');
    } else {
      SoundMeanwhile(s, a);
    }
  }

  lemma {:induction false} AlwaysSound(actions: seq<Action>)
    requires Execute(actions).Some?
    ensures Sound(Execute(actions).value)
  {
    if actions != [] {
      var n := |actions| - 1;
      AlwaysSound(actions[..n]);
      SoundStep(Execute(actions[..n]).value, actions[n]);
    }
  }
}
