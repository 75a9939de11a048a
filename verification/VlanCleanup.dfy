/** What a cluster that vanishes leaves behind: without accidents, no VLAN. */
module VlanCleanup {
  import opened Prelude
  import opened Api
  import opened ClusterFlow
  import opened ClusterSteps
  import opened ClusterFleet
  import opened ClusterInvariant
  import opened VlanOwnership
  import opened VlanCount

  // ---- the finalizer ----

  /** In reconcileNormal, behind its early returns. */
  predicate Working(run: Run) {
    HasOwner(run) || run.Inspecting?
  }

  /** The finalizer is added first, and removed last, when no VLAN of the cluster's own is left to delete. */
  ghost predicate FinalizerMoves(run: Run, run': Run)
    requires HasMemory(run) && HasMemory(run')
  {
    var c, c' := run.c, run'.c;
    if run.Owning? then
      && c'.status.vlanID == c.status.vlanID
      && (Working(run') ==> c.finalizer && c'.finalizer)
      && (run'.Removing? ==> c.deleting && c' == c)
      && (run'.Saving? && c'.finalizer && !c.finalizer ==> !c.deleting)
      && (run'.Saving? && !c'.finalizer ==> c.deleting && (c.status.vlanID.None? || UsesExisting(c)))
    else if run.Removing? then run'.Saving? && !c'.finalizer && c'.status.vlanID == c.status.vlanID
    else c'.finalizer == c.finalizer && !run'.Removing?
  }

  lemma FirstFinalizerMoves(run: Run, reply: Reply, now: int)
    requires run.Owning? && Fits(Pending(run), reply) && HasMemory(Resume(run, reply, now))
    ensures FinalizerMoves(run, Resume(run, reply, now))
  {}

  predicate Keeps(c: Cluster, run': Run) {
    HasMemory(run') && run'.c.finalizer == c.finalizer && !run'.Removing?
  }

  lemma ReadyKeeps(c: Cluster, o: OwnerCluster, now: int)
    ensures Keeps(c, EnterReady(c, o, now))
  {}

  lemma CreateKeeps(c: Cluster, o: OwnerCluster, now: int)
    ensures Keeps(c, EnterCreate(c, o, now))
  {}

  lemma VlanKeeps(c: Cluster, o: OwnerCluster, now: int)
    ensures Keeps(c, EnterVlan(c, o, now))
  {
    CreateKeeps(c, o, now);
    ReadyKeeps(c, o, now);
    if c.spec.vlan.Some? {
      ReadyKeeps(c.(status := c.status.(vlanID := c.spec.vlan.value.existing)), o, now);
    }
  }

  lemma LocateKeeps(run: Run, reply: Reply, now: int)
    requires run.Locating? && Fits(Pending(run), reply)
    ensures Keeps(run.c, Resume(run, reply, now))
  {
    VlanKeeps(run.c, run.owner, now);
  }

  lemma FetchKeeps(run: Run, reply: Reply, now: int)
    requires run.Fetching? && Fits(Pending(run), reply)
    ensures Keeps(run.c, Resume(run, reply, now))
  {}

  lemma VerifyKeeps(run: Run, reply: Reply, now: int)
    requires run.Verifying? && Fits(Pending(run), reply)
    ensures Keeps(run.c, Resume(run, reply, now))
  {
    CreateKeeps(run.c, run.owner, now);
  }

  lemma AdoptKeeps(run: Run, reply: Reply, now: int)
    requires (run.Listing? || run.Creating?) && Fits(Pending(run), reply)
    ensures Keeps(run.c, Resume(run, reply, now))
  {}

  lemma EveryFinalizerMoves(run: Run, reply: Reply, now: int)
    requires HasMemory(run) && Fits(Pending(run), reply) && HasMemory(Resume(run, reply, now))
    ensures FinalizerMoves(run, Resume(run, reply, now))
  {
    if run.Owning? {
      FirstFinalizerMoves(run, reply, now);
    } else if run.Locating? {
      LocateKeeps(run, reply, now);
    } else if run.Fetching? {
      FetchKeeps(run, reply, now);
    } else if run.Verifying? {
      VerifyKeeps(run, reply, now);
    } else if run.Listing? || run.Creating? {
      AdoptKeeps(run, reply, now);
    }
  }

  ghost predicate Moved(s: State, reply: Reply, side: Option<Vlan>, run': Run) {
    && Answered(s, reply, side, run')
    && (HasMemory(s.active.value.run) && HasMemory(run') ==> FinalizerMoves(s.active.value.run, run'))
  }

  lemma AnswerMoves(s: State, a: Action) returns (run': Run)
    requires Sound(s) && Legal(s, a) && a.Answer?
    ensures Moved(s, a.reply, a.side, run') && Step(s, a) == Advance(s, a.reply, a.side, run')
  {
    run' := Resume(s.active.value.run, a.reply, a.now);
    EveryChange(s.active.value.run, a.reply, a.now);
    if HasMemory(s.active.value.run) && HasMemory(run') {
      EveryFinalizerMoves(s.active.value.run, a.reply, a.now);
    }
  }

  // ---- without accidents ----

  /** The memory has a VLAN of the cluster's own that is not on record. */
  ghost predicate Unsaved(s: State) {
    s.active.Some? && HasMemory(s.active.value.run) &&
    var a := s.active.value;
    && OwnsVlan(a.run.c) && a.run.c.status.vlanID.Some?
    && a.uid in s.clusters && s.clusters[a.uid].status.vlanID != a.run.c.status.vlanID
  }

  /**
   * No accident happens: ListVLANs and DeleteVLAN succeed, a refused creation makes nothing, and a reconcile does not
   * end while its VLAN is unsaved. GetVLAN may fail at will.
   */
  ghost predicate Careful(s: State, a: Action)
    requires Legal(s, a)
  {
    match a
    case Answer(reply, _, side) =>
      var run := s.active.value.run;
      (run.Listing? ==> reply.vlans.Ok?) && (run.Creating? ==> side.None?) && (run.Removing? ==> reply.error.None?) &&
      (run.Saving? && reply.error.Some? ==> !Unsaved(s))
    case Crash => !Unsaved(s)
    case _ => true
  }

  ghost predicate CarefulRun(actions: seq<Action>) {
    Execute(actions).Some? &&
    forall i :: 0 <= i < |actions| ==>
      var before := Execute(actions[..i]);
      before.Some? && Legal(before.value, actions[i]) && Careful(before.value, actions[i])
  }

  /** A VLAN on record keeps the finalizer until it has been deleted. */
  ghost predicate Guarded(vlans: set<string>, c: Cluster) {
    OwnsVlan(c) && c.status.vlanID.Some? && !c.finalizer ==> c.deleting && c.status.vlanID.value !in vlans
  }

  /** What the memory forgot is gone, and what it alone knows is guarded by the finalizer. */
  ghost predicate Watched(vlans: set<string>, run: Run, p: Cluster)
    requires HasMemory(run)
  {
    var c := run.c;
    && Guarded(vlans, c)
    && (c.deleting ==> p.deleting)
    && (Working(run) ==> p.finalizer && c.finalizer)
    && (run.Owning? || run.Removing? ==> c.status.vlanID == p.status.vlanID && c.finalizer == p.finalizer)
    && (run.Removing? ==> c.deleting)
    && (OwnsVlan(c) && c.status.vlanID != p.status.vlanID ==>
          p.finalizer && c.finalizer && (p.status.vlanID.Some? ==> p.status.vlanID.value !in vlans))
    && (OwnsVlan(c) && c.finalizer && !p.finalizer ==> p.status.vlanID.None?)
  }

  ghost predicate Guards(s: State) {
    && (forall u :: u in s.clusters ==> Guarded(s.vlans, s.clusters[u]))
    && (s.active.Some? && HasMemory(s.active.value.run) ==>
          var a := s.active.value;
          ((a.run.c.finalizer && !a.run.Saving?) || Working(a.run) ==> a.uid in s.clusters) &&
          (a.uid in s.clusters ==> Watched(s.vlans, a.run, s.clusters[a.uid])))
  }

  /** The cluster has the VLAN on record, or in the memory of its reconcile, and carries the finalizer. */
  ghost predicate Holds(p: Cluster, memory: Option<Cluster>, id: string) {
    && p.finalizer
    && (p.status.vlanID == Some(id) || (memory.Some? && memory.value.finalizer && memory.value.status.vlanID == Some(id)))
  }

  function MemoryOf(s: State, u: Uid): Option<Cluster> {
    if s.active.Some? && s.active.value.uid == u && HasMemory(s.active.value.run) then Some(s.active.value.run.c) else None
  }

  /** Every live VLAN that a cluster's reconcile made is held by that cluster. */
  ghost predicate Held(s: State, e: Event) {
    e.Made? && e.id in s.vlans ==> e.uid in s.clusters && Holds(s.clusters[e.uid], MemoryOf(s, e.uid), e.id)
  }

  ghost predicate Kept(s: State) {
    Guards(s) && (forall i :: 0 <= i < |s.log| ==> Held(s, s.log[i]) && !s.log[i].ListFailed?)
  }

  lemma {:induction false} NoFailures(log: seq<Event>, description: string)
    requires forall i :: 0 <= i < |log| ==> !log[i].ListFailed?
    ensures Failures(log, description) == 0
  {
    if log != [] {
      NoFailures(log[..|log| - 1], description);
    }
  }

  /** If every list has succeeded, a VLAN that is adopted is the one on record, or that one is gone. */
  lemma AdoptsItsOwn(s: State, reply: Reply, side: Option<Vlan>, run': Run, v: string)
    requires Sound(s) && AllGood(s) && Answered(s, reply, side, run') && Adopted(s.active.value.run, reply).Some?
    requires (forall i :: 0 <= i < |s.log| ==> !s.log[i].ListFailed?) && (s.active.value.run.Listing? ==> reply.vlans.Ok?)
    requires var d := s.active.value.run.request.description; Few(s, d) && v in Carriers(s, d)
    ensures s.active.value.run.Listing? && Adopted(s.active.value.run, reply).value.id == v
  {
    var run := s.active.value.run;
    var d := run.request.description;
    NoFailures(s.log, d);
    SubsetIsSmaller({v}, Carriers(s, d));
    if run.Listing? {
      var i := FoundIsListed(reply.vlans.value, d);
      var w := reply.vlans.value[i].id;
      if w != v {
        SubsetIsSmaller({v, w}, Carriers(s, d));
      }
    }
  }

  /** The VLAN in a status is alive behind an answer only if it was alive before. */
  predicate NotRevived(vlans: set<string>, vlans': set<string>, c: Cluster) {
    c.status.vlanID.Some? && c.status.vlanID.value in vlans' ==> c.status.vlanID.value in vlans
  }

  /** What an answer does to the live VLANs, and to those that the running reconcile knows. */
  ghost predicate VlansMove(vlans: set<string>, vlans': set<string>, run: Run, p: Cluster, reply: Reply) {
    && NotRevived(vlans, vlans', p) && (HasMemory(run) ==> NotRevived(vlans, vlans', run.c))
    && (run.Removing? ==> run.id !in vlans')
    && (HasMemory(run) && Adopted(run, reply).Some? && p.status.vlanID.Some? && p.status.vlanID.value in vlans ==>
          Adopted(run, reply).value.id == p.status.vlanID.value)
  }

  lemma WatchedAdvance(vlans: set<string>, vlans': set<string>, run: Run, p: Cluster, reply: Reply, run': Run)
    requires HasMemory(run) && HasMemory(run') && Fits(Pending(run), reply) && Shape(run) && Change(run, reply, run')
    requires FinalizerMoves(run, run') && BornAs(p, run.c)
    requires Watched(vlans, run, p) && Guarded(vlans, p) && VlansMove(vlans, vlans', run, p, reply)
    ensures Watched(vlans', run', Stored(run, p, reply))
  {}

  lemma AdoptsRecorded(s: State, reply: Reply, side: Option<Vlan>, run': Run, v: string)
    requires Sound(s) && AllGood(s) && Answered(s, reply, side, run') && Adopted(s.active.value.run, reply).Some?
    requires Kept(s) && (s.active.value.run.Listing? ==> reply.vlans.Ok?) && s.active.value.uid in s.clusters
    requires Few(s, s.active.value.run.request.description)
    requires s.clusters[s.active.value.uid].status.vlanID == Some(v) && v in s.vlans
    ensures Adopted(s.active.value.run, reply).value.id == v
  {
    var a := s.active.value;
    assert Good(s.issued, s.clusters[a.uid]) && BornAs(s.born[a.uid], s.clusters[a.uid]);
    AdoptsItsOwn(s, reply, side, run', v);
  }

  /** The state before a careful answer. */
  ghost predicate CarefulAnswer(s: State, reply: Reply, side: Option<Vlan>, run': Run) {
    && Sound(s) && AllGood(s) && Kept(s) && Moved(s, reply, side, run')
    && (s.active.value.run.Listing? || s.active.value.run.Creating? ==> Few(s, s.active.value.run.request.description))
    && Careful(s, Answer(reply, 0, side))
  }

  /** A new VLAN is none that is in a status. */
  lemma NoneRevived(s: State, reply: Reply, side: Option<Vlan>, run': Run, c: Cluster)
    requires Sound(s) && Answered(s, reply, side, run') && Good(s.issued, c)
    requires s.active.value.run.Creating? ==> OwnsVlan(c)
    ensures NotRevived(s.vlans, Advance(s, reply, side, run').vlans, c)
  {
    if Created(Pending(s.active.value.run), reply, side).Some? {
      MadeIsFresh(s, reply, side, run');
    }
  }

  /** What the running reconcile has in memory is its cluster's, as is what is on record. */
  lemma ActiveGood(s: State)
    requires Sound(s) && AllGood(s) && s.active.Some? && s.active.value.uid in s.clusters
    ensures var a := s.active.value; var p := s.clusters[a.uid];
            Good(s.issued, p) && (HasMemory(a.run) ==> Good(s.issued, a.run.c) && BornAs(p, a.run.c))
  {
    assert BornAs(s.born[s.active.value.uid], s.clusters[s.active.value.uid]);
  }

  lemma EveryVlanMoves(s: State, reply: Reply, side: Option<Vlan>, run': Run)
    requires CarefulAnswer(s, reply, side, run') && s.active.value.uid in s.clusters
    ensures var a := s.active.value;
            VlansMove(s.vlans, Advance(s, reply, side, run').vlans, a.run, s.clusters[a.uid], reply)
  {
    var a := s.active.value;
    var p := s.clusters[a.uid];
    ActiveGood(s);
    NoneRevived(s, reply, side, run', p);
    if HasMemory(a.run) {
      NoneRevived(s, reply, side, run', a.run.c);
      if Adopted(a.run, reply).Some? && p.status.vlanID.Some? && p.status.vlanID.value in s.vlans {
        AdoptsRecorded(s, reply, side, run', p.status.vlanID.value);
      }
    }
  }

  lemma GuardedByOther(s: State, reply: Reply, side: Option<Vlan>, run': Run, c: Cluster)
    requires Sound(s) && Answered(s, reply, side, run') && Good(s.issued, c) && Guarded(s.vlans, c)
    ensures Guarded(Advance(s, reply, side, run').vlans, c)
  {
    if OwnsVlan(c) {
      NoneRevived(s, reply, side, run', c);
    }
  }

  lemma GuardedByActive(vlans: set<string>, vlans': set<string>, run: Run, p: Cluster, reply: Reply)
    requires !run.Finished? && Fits(Pending(run), reply) && Guarded(vlans, p) && VlansMove(vlans, vlans', run, p, reply)
    requires HasMemory(run) ==> Watched(vlans, run, p) && BornAs(p, run.c)
    ensures Guarded(vlans', Stored(run, p, reply))
  {}

  lemma GuardedAdvance(s: State, reply: Reply, side: Option<Vlan>, run': Run, u: Uid)
    requires CarefulAnswer(s, reply, side, run') && u in s.clusters
    ensures var t := Advance(s, reply, side, run'); u in t.clusters && Guarded(t.vlans, t.clusters[u])
  {
    var a := s.active.value;
    ClustersAdvance(s, reply, side, run');
    assert Good(s.issued, s.clusters[u]) && Guarded(s.vlans, s.clusters[u]) && BornAs(s.born[u], s.clusters[u]);
    if u == a.uid {
      EveryVlanMoves(s, reply, side, run');
      GuardedByActive(s.vlans, Advance(s, reply, side, run').vlans, a.run, s.clusters[u], reply);
    } else {
      GuardedByOther(s, reply, side, run', s.clusters[u]);
    }
  }

  lemma MemoryAdvance(s: State, reply: Reply, side: Option<Vlan>, run': Run)
    requires CarefulAnswer(s, reply, side, run') && HasMemory(run')
    ensures var a, t := s.active.value, Advance(s, reply, side, run');
            ((run'.c.finalizer && !run'.Saving?) || Working(run') ==> a.uid in t.clusters) &&
            (a.uid in t.clusters ==> Watched(t.vlans, run', t.clusters[a.uid]))
  {
    var a := s.active.value;
    ClustersAdvance(s, reply, side, run');
    if a.uid in s.clusters {
      assert Guarded(s.vlans, s.clusters[a.uid]) && BornAs(s.born[a.uid], s.clusters[a.uid]);
      EveryVlanMoves(s, reply, side, run');
      if !a.run.Reading? {
        WatchedAdvance(s.vlans, Advance(s, reply, side, run').vlans, a.run, s.clusters[a.uid], reply, run');
      }
    }
  }

  lemma GuardsAdvance(s: State, reply: Reply, side: Option<Vlan>, run': Run)
    requires CarefulAnswer(s, reply, side, run')
    ensures Guards(Advance(s, reply, side, run'))
  {
    var t := Advance(s, reply, side, run');
    forall u | u in t.clusters ensures Guarded(t.vlans, t.clusters[u]) {
      ClustersAdvance(s, reply, side, run');
      GuardedAdvance(s, reply, side, run', u);
    }
    if HasMemory(run') {
      MemoryAdvance(s, reply, side, run');
    }
  }

  // ---- what is held stays held ----

  /** The memory and the record of the running reconcile behind an answer. */
  lemma HoldsAdvance(vlans: set<string>, vlans': set<string>, a: Active, p: Cluster, reply: Reply, run': Run, v: string)
    requires HasMemory(a.run) && Fits(Pending(a.run), reply) && Shape(a.run) && Change(a.run, reply, run')
    requires HasMemory(run') ==> FinalizerMoves(a.run, run')
    requires BornAs(p, a.run.c) && OwnsVlan(p)
    requires Watched(vlans, a.run, p) && Guarded(vlans, p) && VlansMove(vlans, vlans', a.run, p, reply)
    requires v in vlans && v in vlans' && Holds(p, Some(a.run.c), v)
    requires Adopted(a.run, reply).Some? ==> Adopted(a.run, reply).value.id == v
    requires a.run.Saving? && reply.error.Some? ==> a.run.c.status.vlanID.None? || a.run.c.status.vlanID == p.status.vlanID
    ensures Holds(Stored(a.run, p, reply), if HasMemory(run') then Some(run'.c) else None, v)
  {}

  /** A VLAN that an event speaks of, and that is alive behind the answer, was alive before. */
  lemma OldVlan(s: State, reply: Reply, side: Option<Vlan>, run': Run, e: Event)
    requires Answered(s, reply, side, run') && Sound(s) && Proper(s, e) && e.Made?
    requires e.id in Advance(s, reply, side, run').vlans
    ensures e.id in s.vlans
  {
    if Created(Pending(s.active.value.run), reply, side).Some? {
      MadeIsFresh(s, reply, side, run');
    }
  }

  lemma AdoptsHeld(s: State, reply: Reply, side: Option<Vlan>, run': Run, e: Event)
    requires CarefulAnswer(s, reply, side, run') && Proper(s, e) && e.Made? && e.id in s.vlans && e.uid == s.active.value.uid
    requires Adopted(s.active.value.run, reply).Some?
    ensures Adopted(s.active.value.run, reply).value.id == e.id
  {
    AdoptsItsOwn(s, reply, side, run', e.id);
  }

  lemma HeldInMemory(s: State, reply: Reply, side: Option<Vlan>, run': Run, e: Event)
    requires CarefulAnswer(s, reply, side, run') && Proper(s, e) && e.Made? && e.id in s.vlans && e.uid == s.active.value.uid
    requires e.id in Advance(s, reply, side, run').vlans && Held(s, e) && HasMemory(s.active.value.run)
    ensures var a := s.active.value;
            Holds(Stored(a.run, s.clusters[a.uid], reply), if HasMemory(run') then Some(run'.c) else None, e.id)
  {
    var a, t := s.active.value, Advance(s, reply, side, run');
    var p := s.clusters[a.uid];
    assert Guarded(s.vlans, p) && BornAs(s.born[a.uid], p);
    EveryVlanMoves(s, reply, side, run');
    if Adopted(a.run, reply).Some? {
      AdoptsHeld(s, reply, side, run', e);
    }
    HoldsAdvance(s.vlans, t.vlans, a, p, reply, run', e.id);
  }

  /** Being held, by the cluster of the running reconcile, is a matter of its record and of the memory. */
  lemma HeldBehindAnswer(s: State, reply: Reply, side: Option<Vlan>, run': Run, e: Event)
    requires s.active.Some? && !s.active.value.run.Finished? && Fits(Pending(s.active.value.run), reply)
    requires e.Made? && e.uid == s.active.value.uid && e.uid in s.clusters
    requires Holds(Stored(s.active.value.run, s.clusters[e.uid], reply), if HasMemory(run') then Some(run'.c) else None, e.id)
    ensures Held(Advance(s, reply, side, run'), e)
  {
    ClustersAdvance(s, reply, side, run');
  }

  lemma HeldByActive(s: State, reply: Reply, side: Option<Vlan>, run': Run, e: Event)
    requires CarefulAnswer(s, reply, side, run') && Proper(s, e) && e.Made? && e.id in s.vlans && e.uid == s.active.value.uid
    requires e.id in Advance(s, reply, side, run').vlans && Held(s, e)
    ensures Held(Advance(s, reply, side, run'), e)
  {
    if HasMemory(s.active.value.run) {
      HeldInMemory(s, reply, side, run', e);
    }
    HeldBehindAnswer(s, reply, side, run', e);
  }

  lemma HeldAdvance(s: State, reply: Reply, side: Option<Vlan>, run': Run, e: Event)
    requires CarefulAnswer(s, reply, side, run') && Proper(s, e) && Held(s, e)
    ensures Held(Advance(s, reply, side, run'), e)
  {
    var t := Advance(s, reply, side, run');
    if e.Made? && e.id in t.vlans {
      OldVlan(s, reply, side, run', e);
      ClustersAdvance(s, reply, side, run');
      if e.uid == s.active.value.uid {
        HeldByActive(s, reply, side, run', e);
      }
    }
  }

  /** A VLAN that was just made is held in memory. */
  lemma NewIsHeld(s: State, reply: Reply, side: Option<Vlan>, run': Run)
    requires CarefulAnswer(s, reply, side, run') && Created(Pending(s.active.value.run), reply, side).Some?
    ensures var a := s.active.value;
            Held(Advance(s, reply, side, run'), Made(a.uid, Created(Pending(a.run), reply, side).value.id))
  {
    MadeIsFresh(s, reply, side, run');
    ClustersAdvance(s, reply, side, run');
  }

  lemma LogAdvance(s: State, reply: Reply, side: Option<Vlan>, run': Run, i: nat)
    requires CarefulAnswer(s, reply, side, run') && AllProper(s) && i < |Advance(s, reply, side, run').log|
    ensures var t := Advance(s, reply, side, run'); Held(t, t.log[i]) && !t.log[i].ListFailed?
  {
    if i < |s.log| {
      assert Proper(s, s.log[i]) && Held(s, s.log[i]);
      HeldAdvance(s, reply, side, run', s.log[i]);
    } else if Created(Pending(s.active.value.run), reply, side).Some? {
      NewIsHeld(s, reply, side, run');
    }
  }

  lemma KeptAdvance(s: State, reply: Reply, side: Option<Vlan>, run': Run)
    requires CarefulAnswer(s, reply, side, run') && AllProper(s)
    ensures Kept(Advance(s, reply, side, run'))
  {
    var t := Advance(s, reply, side, run');
    GuardsAdvance(s, reply, side, run');
    forall i | 0 <= i < |t.log| ensures Held(t, t.log[i]) && !t.log[i].ListFailed? {
      LogAdvance(s, reply, side, run', i);
    }
  }

  /** No VLAN comes back to life. */
  ghost predicate NoneReturns(s: State, t: State) {
    forall id :: id in s.issued && id in t.vlans ==> id in s.vlans
  }

  lemma NoneReturnsMeanwhile(s: State, a: Action)
    requires ClustersSound(s) && Legal(s, a) && !a.Answer?
    ensures NoneReturns(s, Step(s, a))
  {}

  /** A cluster changes only in that it is being deleted. */
  lemma ClusterMeanwhile(s: State, a: Action, u: Uid)
    requires ClustersSound(s) && Legal(s, a) && !a.Answer? && u in Step(s, a).clusters
    ensures var c := Step(s, a).clusters[u];
            if u in s.clusters then c == s.clusters[u].(deleting := c.deleting) && (s.clusters[u].deleting ==> c.deleting)
            else Blank(c)
  {}

  lemma GuardedMeanwhile(s: State, a: Action, u: Uid)
    requires Sound(s) && AllGood(s) && Guards(s) && Legal(s, a) && !a.Answer? && u in Step(s, a).clusters
    ensures Guarded(Step(s, a).vlans, Step(s, a).clusters[u])
  {
    ClusterMeanwhile(s, a, u);
    if u in s.clusters && OwnsVlan(s.clusters[u]) {
      assert Good(s.issued, s.clusters[u]) && Guarded(s.vlans, s.clusters[u]);
      NoneReturnsMeanwhile(s, a);
    }
  }

  lemma WatchedMeanwhile(vlans: set<string>, vlans': set<string>, run: Run, p: Cluster, p': Cluster)
    requires HasMemory(run) && Watched(vlans, run, p) && BornAs(p, run.c)
    requires p' == p.(deleting := p'.deleting) && (p.deleting ==> p'.deleting)
    requires OwnsVlan(p) ==> NotRevived(vlans, vlans', p) && NotRevived(vlans, vlans', run.c)
    ensures Watched(vlans', run, p')
  {}

  lemma MemoryMeanwhile(s: State, t: State)
    requires Sound(s) && AllGood(s) && Guards(s) && NoneReturns(s, t)
    requires s.active.Some? && HasMemory(s.active.value.run) && s.active.value.uid in s.clusters
    requires s.active.value.uid in t.clusters
    requires var p, p' := s.clusters[s.active.value.uid], t.clusters[s.active.value.uid];
             p' == p.(deleting := p'.deleting) && (p.deleting ==> p'.deleting)
    ensures var b := s.active.value; Watched(t.vlans, b.run, t.clusters[b.uid])
  {
    var b := s.active.value;
    ActiveGood(s);
    WatchedMeanwhile(s.vlans, t.vlans, b.run, s.clusters[b.uid], t.clusters[b.uid]);
  }

  /** A cluster that is gone came without a finalizer, and to stay gone. */
  lemma PresenceMeanwhile(s: State, a: Action)
    requires Sound(s) && Guards(s) && Legal(s, a) && !a.Answer?
    requires s.active.Some? && HasMemory(s.active.value.run)
    ensures var b, t := s.active.value, Step(s, a);
            ((b.run.c.finalizer && !b.run.Saving?) || Working(b.run) ==> b.uid in t.clusters) &&
            (b.uid in t.clusters ==> b.uid in s.clusters)
  {}

  lemma GuardsMeanwhile(s: State, a: Action)
    requires Sound(s) && AllGood(s) && Guards(s) && Legal(s, a) && !a.Answer?
    ensures Guards(Step(s, a))
  {
    var t := Step(s, a);
    forall u | u in t.clusters ensures Guarded(t.vlans, t.clusters[u]) {
      GuardedMeanwhile(s, a, u);
    }
    if t.active.Some? && HasMemory(t.active.value.run) {
      PresenceMeanwhile(s, a);
      if s.active.value.uid in t.clusters {
        NoneReturnsMeanwhile(s, a);
        ClusterMeanwhile(s, a, s.active.value.uid);
        MemoryMeanwhile(s, t);
      }
    }
  }

  lemma HeldOnCrash(s: State, e: Event)
    requires Sound(s) && Guards(s) && Proper(s, e) && Held(s, e) && Legal(s, Crash) && Careful(s, Crash)
    ensures Held(Step(s, Crash), e)
  {}

  lemma HeldMeanwhile(s: State, a: Action, e: Event)
    requires Proper(s, e) && Held(s, e) && ClustersSound(s) && Legal(s, a) && !a.Answer? && !a.Crash?
    ensures Held(Step(s, a), e)
  {}

  lemma KeptStep(s: State, a: Action)
    requires Sound(s) && AllGood(s) && AllProper(s) && Kept(s) && Legal(s, a) && Careful(s, a)
    requires s.active.Some? && (s.active.value.run.Listing? || s.active.value.run.Creating?) ==>
               Few(s, s.active.value.run.request.description)
    ensures Kept(Step(s, a))
  {
    if a.Answer? {
      var run' := AnswerMoves(s, a);
      KeptAdvance(s, a.reply, a.side, run');
    } else {
      GuardsMeanwhile(s, a);
      forall i | 0 <= i < |s.log| ensures Held(Step(s, a), s.log[i]) {
        assert Proper(s, s.log[i]) && Held(s, s.log[i]);
        if a.Crash? {
          HeldOnCrash(s, s.log[i]);
        } else {
          HeldMeanwhile(s, a, s.log[i]);
        }
      }
    }
  }

  lemma {:induction false} AlwaysKept(actions: seq<Action>)
    requires CarefulRun(actions)
    ensures Kept(Execute(actions).value)
  {
    if actions != [] {
      var n := |actions| - 1;
      var s := Execute(actions[..n]).value;
      assert forall i :: 0 <= i < n ==> actions[..n][..i] == actions[..i];
      AlwaysSound(actions[..n]);
      AlwaysGood(actions[..n]);
      AlwaysProper(actions[..n]);
      AlwaysKept(actions[..n]);
      if s.active.Some? && (s.active.value.run.Listing? || s.active.value.run.Creating?) {
        DescriptionIsOurs(s.active.value.run.c);
        AlwaysFew(actions[..n], s.active.value.run.request.description);
      }
      KeptStep(s, actions[n]);
    }
  }

  /**
   * Without accidents, a VLAN that a cluster's reconcile made, and that is still alive, belongs to that cluster, which
   * exists, carries the finalizer, and has it on record, or in the memory of the reconcile that has yet to save it. So
   * a cluster that is gone leaves none of its VLANs behind, although a reconcile deletes only the one on record.
   */
  lemma NoVlanIsOrphaned(actions: seq<Action>, i: nat)
    requires CarefulRun(actions)
    requires var s := Execute(actions).value; i < |s.log| && s.log[i].Made? && s.log[i].id in s.vlans
    ensures var s := Execute(actions).value; var u, id := s.log[i].uid, s.log[i].id;
            && u in s.clusters && s.clusters[u].finalizer
            && (s.clusters[u].status.vlanID == Some(id) ||
                (Unsaved(s) && s.active.value.uid == u && s.active.value.run.c.status.vlanID == Some(id)))
  {
    AlwaysKept(actions);
    AlwaysSound(actions);
    AlwaysProper(actions);
    var s := Execute(actions).value;
    assert Held(s, s.log[i]) && Proper(s, s.log[i]);
  }
}
