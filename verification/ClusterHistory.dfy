/** The history of every cluster reconcile of every run, read without its memory. */
module ClusterHistory {
  import opened Prelude
  import opened Text
  import opened Conditions
  import opened Api
  import opened ClusterFlow
  import opened ClusterSteps
  import opened ClusterFleet
  import opened ClusterInvariant
  import opened ClusterLaws
  import EndpointChoice

  /** The cluster with a report. */
  function Stated(p: Cluster, c: Claim, now: int): Cluster {
    p.(status := p.status.(conditions := Put(p.status.conditions,
                                             Condition(ClusterReady, c.status, c.reason, c.message, 0, now),
                                             RewriteOnChange)))
  }

  ghost predicate States(p: Cluster, claim: Option<Claim>, c: Cluster) {
    match claim
    case None => c == p
    case Some(r) => exists now :: c == Stated(p, r, now)
  }

  /** Where the conversation stands is what is expected. */
  ghost predicate Meets(step: Next, run: Run) {
    match step
    case Ask(call) => !run.Saving? && !run.Finished? && Pending(run) == call
    case Patch(p, claim, outcome) => run.Saving? && run.outcome == outcome && States(p, claim, run.c)
    case Close(outcome) => run == Finished(outcome)
  }

  /** What the conversation remembers is what the answers say. */
  ghost predicate Remembers(w: seq<Turn>, run: Run)
    requires Opened(w)
  {
    && (HasMemory(run) && !run.Saving? && !run.Locating? && !run.Fetching? ==> run.c == Object(w))
    && (run.Owning? ==> |w| == 1)
    && (run.Locating? ==> run.c == Object(w) && Lacks(run.c) == [])
    && (run.Fetching? ==> run.c == Object(w) && Borrows(run.c))
    && (run.Verifying? || run.Listing? || run.Creating? ==> Asks(run.c) && Lacks(run.c) == [])
    && (run.Listing? || run.Creating? ==> run.request == VlanRequest(run.c.spec.project.value, run.c.spec.location, Tag(run.c)))
    && (HasOwner(run) ==> OwnerOf(w) == Some(run.owner))
    && (run.Saving? ==> |w| > 1 && !Last(w).call.Save?)
    && (!run.Saving? ==> |w| > 1 ==> !Last(w).call.Save?)
  }

  ghost predicate Recalls(w: seq<Turn>, run: Run) {
    && (w == [] <==> run.Reading?)
    && (w != [] ==> w[0].call.GetCluster?)
    && (HasMemory(run) ==> Opened(w) && Remembers(w, run))
    && Meets(Expected(w), run)
  }

  lemma {:induction false} Extends(w: seq<Turn>, t: Turn)
    ensures Last(w + [t]) == t && Front(w + [t]) == w
    ensures Opened(w) ==>
              Opened(w + [t]) && Object(w + [t]) == Effect(Object(w), t) && (|w| > 1 ==> OwnerOf(w + [t]) == OwnerOf(w))
  {
    assert (w + [t])[..|w + [t]| - 1] == w;
  }

  ghost predicate GoesOn(w: seq<Turn>, run: Run, reply: Reply, now: int)
    requires !run.Finished? && Fits(Pending(run), reply)
  {
    var t: Turn := Exchanged(Pending(run), reply);
    Recalls(w + [t], Resume(run, reply, now))
  }

  // ---- the same decisions ----

  lemma {:induction false} FirstVlanIsFound(vlans: seq<Vlan>, description: string)
    ensures FirstVlan(vlans, description) == FindVlan(vlans, description)
  {
    if vlans != [] {
      var n := |vlans| - 1;
      FirstVlanIsFound(vlans[..n], description);
      FindAppends(vlans[..n], vlans[n], description);
      assert vlans == vlans[..n] + [vlans[n]];
    }
  }

  lemma {:induction false} FindAppends(vlans: seq<Vlan>, v: Vlan, description: string)
    ensures FindVlan(vlans + [v], description) ==
            if FindVlan(vlans, description).Some? || v.description != description then FindVlan(vlans, description) else Some(v)
  {
    if vlans == [] {
      assert vlans + [v] == [v] && [v][1..] == [];
    } else {
      assert (vlans + [v])[1..] == vlans[1..] + [v];
      FindAppends(vlans[1..], v, description);
    }
  }

  lemma {:induction false} FirstControlPlaneIsFound(machines: seq<CapiMachine>)
    ensures FirstControlPlane(machines) == FindControlPlane(machines)
  {
    if machines != [] {
      var n := |machines| - 1;
      FirstControlPlaneIsFound(machines[..n]);
      PickAppends(machines[..n], machines[n]);
      assert machines == machines[..n] + [machines[n]];
    }
  }

  lemma {:induction false} PickAppends(machines: seq<CapiMachine>, m: CapiMachine)
    ensures FindControlPlane(machines + [m]) ==
            if FindControlPlane(machines).Some? || !m.controlPlane then FindControlPlane(machines) else Some(m)
  {
    if machines == [] {
      assert machines + [m] == [m] && [m][1..] == [];
    } else {
      assert (machines + [m])[1..] == machines[1..] + [m];
      PickAppends(machines[1..], m);
    }
  }

  lemma SmallIsLower(s: string)
    ensures Small(s) == ToLower(s)
  {}

  /** A report, made now. */
  lemma Claims(p: Cluster, c: Claim, now: int)
    ensures States(p, Some(c), Report(p, c.status, c.reason, c.message, now))
  {
    assert Report(p, c.status, c.reason, c.message, now) == Stated(p, c, now);
  }

  lemma FailMeets(c: Cluster, error: string, now: int)
    ensures Meets(Fail(c, error), Abort(c, error, now))
  {
    Claims(c, Claim(ConditionFalse, ClusterProvisionFailed, error), now);
  }

  /** The turns behind which the infrastructure is there. */
  lemma ProvisionedRecalls(w: seq<Turn>, c: Cluster, o: OwnerCluster, now: int)
    requires Opened(w) && |w| > 1 && !Last(w).call.Save? && Object(w) == c && OwnerOf(w) == Some(o)
    requires Expected(w) == Provisioned(c, Some(o))
    ensures Recalls(w, EnterReady(c, o, now))
  {
    if !c.status.ready {
      Claims(c.(status := c.status.(ready := true)),
             Claim(ConditionTrue, ClusterIsReady, "Cluster infrastructure is ready"), now);
    }
  }

  lemma LacksNothing(c: Cluster)
    ensures Lacks(c) == [] <==> c.spec.location != "" && c.spec.project.Some? && c.spec.project.value != ""
  {}

  lemma CreateLists(c: Cluster, o: OwnerCluster, now: int)
    requires Asks(c) && Lacks(c) == []
    ensures EnterCreate(c, o, now) == Listing(c, o, VlanRequest(c.spec.project.value, c.spec.location, Tag(c)))
  {
    LacksNothing(c);
  }

  lemma SearchRecalls(w: seq<Turn>, c: Cluster, o: OwnerCluster, now: int)
    requires Opened(w) && |w| > 1 && !Last(w).call.Save? && Object(w) == c && OwnerOf(w) == Some(o)
    requires Asks(c) && Lacks(c) == [] && Expected(w) == Search(c)
    ensures Recalls(w, EnterCreate(c, o, now))
  {
    CreateLists(c, o, now);
  }

  lemma AbortRecalls(w: seq<Turn>, c: Cluster, error: string, now: int)
    requires Opened(w) && |w| > 1 && !Last(w).call.Save? && Expected(w) == Fail(c, error)
    ensures Recalls(w, Abort(c, error, now))
  {
    FailMeets(c, error, now);
  }

  // ---- one answer ----

  lemma ReadGoesOn(w: seq<Turn>, run: Run, reply: Reply, now: int)
    requires run.Reading? && Fits(Pending(run), reply) && Recalls(w, run)
    ensures GoesOn(w, run, reply, now)
  {
    Extends(w, Exchanged(Pending(run), reply));
  }

  lemma OwnerGoesOn(w: seq<Turn>, run: Run, reply: Reply, now: int)
    requires run.Owning? && Fits(Pending(run), reply) && Recalls(w, run)
    ensures GoesOn(w, run, reply, now)
  {
    Extends(w, Exchanged(Pending(run), reply));
    assert Lacks(run.c) == SpecErrors(run.c);
    Claims(run.c, Claim(ConditionFalse, InvalidClusterConfig, "validation failed: " + Join(Lacks(run.c), ", ")), now);
  }

  lemma LocateGoesOn(w: seq<Turn>, run: Run, reply: Reply, now: int)
    requires run.Locating? && Fits(Pending(run), reply) && Recalls(w, run)
    ensures GoesOn(w, run, reply, now)
  {
    var c, v := run.c, w + [Exchanged(Pending(run), reply)];
    Extends(w, Exchanged(Pending(run), reply));
    match reply.regions
    case Err(e) => AbortRecalls(v, c, "failed to get available regions: " + e, now);
    case Ok(all) =>
      if c.spec.location !in all {
        AbortRecalls(v, c, NotAvailable(c.spec.location, all), now);
      } else if c.spec.vlan.None? || (Borrows(c) && c.status.vlanVID.Some?) {
        ProvisionedRecalls(v, Object(v), run.owner, now);
      } else if !Borrows(c) && c.status.vlanID.None? {
        SearchRecalls(v, c, run.owner, now);
      }
  }

  lemma FetchGoesOn(w: seq<Turn>, run: Run, reply: Reply, now: int)
    requires run.Fetching? && Fits(Pending(run), reply) && Recalls(w, run) && run.c.status.vlanVID.None?
    ensures GoesOn(w, run, reply, now)
  {
    var c, v := run.c, w + [Exchanged(Pending(run), reply)];
    Extends(w, Exchanged(Pending(run), reply));
    match reply.vlan
    case Err(e) => AbortRecalls(v, c, "failed to reconcile VLAN: " + ("failed to get existing VLAN: " + e), now);
    case Ok(_) => ProvisionedRecalls(v, Object(v), run.owner, now);
  }

  lemma VerifyGoesOn(w: seq<Turn>, run: Run, reply: Reply, now: int)
    requires run.Verifying? && Fits(Pending(run), reply) && Recalls(w, run)
    ensures GoesOn(w, run, reply, now)
  {
    var c, v := run.c, w + [Exchanged(Pending(run), reply)];
    Extends(w, Exchanged(Pending(run), reply));
    match reply.vlan
    case Err(_) => SearchRecalls(v, c, run.owner, now);
    case Ok(_) => ProvisionedRecalls(v, Object(v), run.owner, now);
  }

  lemma ListGoesOn(w: seq<Turn>, run: Run, reply: Reply, now: int)
    requires run.Listing? && Fits(Pending(run), reply) && Recalls(w, run)
    ensures GoesOn(w, run, reply, now)
  {
    var c, v := run.c, w + [Exchanged(Pending(run), reply)];
    Extends(w, Exchanged(Pending(run), reply));
    SmallIsLower(c.spec.location);
    if reply.vlans.Ok? {
      FirstVlanIsFound(reply.vlans.value, Tag(c));
      if FirstVlan(reply.vlans.value, Tag(c)).Some? {
        ProvisionedRecalls(v, Object(v), run.owner, now);
      }
    }
  }

  lemma CreateGoesOn(w: seq<Turn>, run: Run, reply: Reply, now: int)
    requires run.Creating? && Fits(Pending(run), reply) && Recalls(w, run)
    ensures GoesOn(w, run, reply, now)
  {
    var c, v := run.c, w + [Exchanged(Pending(run), reply)];
    Extends(w, Exchanged(Pending(run), reply));
    match reply.vlan
    case Err(e) => AbortRecalls(v, c, "failed to reconcile VLAN: " + ("failed to create VLAN: " + e), now);
    case Ok(_) => ProvisionedRecalls(v, Object(v), run.owner, now);
  }

  lemma DiscoverGoesOn(w: seq<Turn>, run: Run, reply: Reply, now: int)
    requires run.Discovering? && Fits(Pending(run), reply) && Recalls(w, run)
    ensures GoesOn(w, run, reply, now)
  {
    Extends(w, Exchanged(Pending(run), reply));
    if reply.machines.Ok? {
      FirstControlPlaneIsFound(reply.machines.value);
    }
  }

  lemma InspectGoesOn(w: seq<Turn>, run: Run, reply: Reply, now: int)
    requires run.Inspecting? && Fits(Pending(run), reply) && Recalls(w, run)
    ensures GoesOn(w, run, reply, now)
  {
    Extends(w, Exchanged(Pending(run), reply));
    if reply.machine.Found? {
      var ip := EndpointChoice.Select(reply.machine.value.status.addresses);
      Claims(run.c.(status := run.c.status.(endpoint := Endpoint(ip, 6443))),
             Claim(ConditionFalse, ControlPlaneEndpointSet, "Control plane endpoint set to " + ip + ":6443"), now);
    }
  }

  lemma EndGoesOn(w: seq<Turn>, run: Run, reply: Reply, now: int)
    requires (run.Removing? || run.Saving?) && Fits(Pending(run), reply) && Recalls(w, run)
    ensures GoesOn(w, run, reply, now)
  {
    Extends(w, Exchanged(Pending(run), reply));
  }

  /** Every answer leads to what is expected behind it. */
  lemma EveryAnswerGoesOn(w: seq<Turn>, run: Run, reply: Reply, now: int)
    requires !run.Finished? && Fits(Pending(run), reply) && Recalls(w, run) && Shape(run)
    ensures GoesOn(w, run, reply, now)
  {
    match run
    case Reading => ReadGoesOn(w, run, reply, now);
    case Owning(_) => OwnerGoesOn(w, run, reply, now);
    case Locating(_, _) => LocateGoesOn(w, run, reply, now);
    case Fetching(_, _, _) => FetchGoesOn(w, run, reply, now);
    case Verifying(_, _, _) => VerifyGoesOn(w, run, reply, now);
    case Listing(_, _, _) => ListGoesOn(w, run, reply, now);
    case Creating(_, _, _) => CreateGoesOn(w, run, reply, now);
    case Discovering(_, _) => DiscoverGoesOn(w, run, reply, now);
    case Inspecting(_, _) => InspectGoesOn(w, run, reply, now);
    case Removing(_, _) | Saving(_, _) => EndGoesOn(w, run, reply, now);
  }

  // ---- over runs ----

  /** An answered call of a cluster's reconcile, and its end: with a result, or by a crash. */
  datatype Note = Asked(uid: Uid, call: Call, reply: Reply) | Ended(uid: Uid, outcome: Option<Outcome>)

  /** What an action adds to the history of calls. */
  function Noted(s: State, a: Action): seq<Note>
    requires Legal(s, a)
  {
    match a
    case Answer(reply, now, _) =>
      var b := s.active.value;
      var run' := Resume(b.run, reply, now);
      var asked := [Asked(b.uid, Pending(b.run), reply)];
      if run'.Finished? then asked + [Ended(b.uid, Some(run'.outcome))] else asked
    case Crash => [Ended(s.active.value.uid, None)]
    case _ => []
  }

  /** The history of calls of a run. */
  ghost function Transcript(actions: seq<Action>): seq<Note>
    requires Execute(actions).Some?
  {
    if actions == [] then []
    else
      var n := |actions| - 1;
      Transcript(actions[..n]) + Noted(Execute(actions[..n]).value, actions[n])
  }

  /** The turns of the reconcile that is running at the end of a history; none if that has just ended. */
  ghost function Turns(log: seq<Note>): seq<Turn> {
    if log == [] then []
    else
      var n := |log| - 1;
      if log[n].Asked? && Fits(log[n].call, log[n].reply) then Turns(log[..n]) + [Exchanged(log[n].call, log[n].reply)]
      else []
  }

  lemma {:induction false} TurnsGrow(log: seq<Note>, e: Note)
    ensures e.Ended? ==> Turns(log + [e]) == []
    ensures e.Asked? && Fits(e.call, e.reply) ==> Turns(log + [e]) == Turns(log) + [Exchanged(e.call, e.reply)]
  {
    assert (log + [e])[..|log|] == log;
  }

  /** An event that is expected behind these turns; a crash can always come. */
  ghost predicate Allows(step: Next, e: Note) {
    match e
    case Ended(_, None) => true
    case Ended(_, Some(outcome)) => step == Close(outcome)
    case Asked(_, call, _) => (
      match step
      case Ask(c) => call == c
      case Patch(p, claim, _) => call.Save? && States(p, claim, call.cluster)
      case Close(_) => false)
  }

  /** There was a point of the conversation at which this call was made; its cluster is the one that was applied. */
  ghost predicate Waited(born: map<Uid, Cluster>, w: seq<Turn>, e: Note) {
    e.Asked? && Fits(e.call, e.reply) &&
    exists run :: Recalls(w, run) && !run.Finished? && Pending(run) == e.call &&
                  (HasMemory(run) ==> e.uid in born && BornAs(born[e.uid], run.c))
  }

  ghost predicate Follows(born: map<Uid, Cluster>, log: seq<Note>, i: nat)
    requires i < |log|
  {
    var w := Turns(log[..i]);
    && (w != [] ==> i > 0 && log[i].uid == log[i - 1].uid && w[0].call.GetCluster?)
    && (log[i].Asked? ==> Waited(born, w, log[i]))
    && (log[i].Ended? && log[i].outcome.Some? ==> w != [] && Expected(w) == Close(log[i].outcome.value))
  }

  ghost predicate Told(s: State, log: seq<Note>) {
    && (forall i :: 0 <= i < |log| ==> Follows(s.born, log, i))
    && (Turns(log) != [] ==> s.active.Some? && log[|log| - 1].uid == s.active.value.uid)
    && (s.active.Some? ==> Recalls(Turns(log), s.active.value.run))
  }

  /** Births are never forgotten, nor histories. */
  lemma {:induction false} FollowsGrows(born: map<Uid, Cluster>, born': map<Uid, Cluster>, log: seq<Note>,
                                        more: seq<Note>, i: nat)
    requires i < |log| && Follows(born, log, i)
    requires forall u :: u in born ==> u in born' && born'[u] == born[u]
    ensures Follows(born', log + more, i)
  {
    assert (log + more)[..i] == log[..i];
    if log[i].Asked? {
      var run :| Recalls(Turns(log[..i]), run) && !run.Finished? && Pending(run) == log[i].call &&
                 (HasMemory(run) ==> log[i].uid in born && BornAs(born[log[i].uid], run.c));
    }
  }

  lemma {:induction false} AllFollow(born: map<Uid, Cluster>, log: seq<Note>, e: Note)
    requires forall i :: 0 <= i < |log| ==> Follows(born, log, i)
    requires Follows(born, log + [e], |log|)
    ensures forall i :: 0 <= i < |log + [e]| ==> Follows(born, log + [e], i)
  {
    forall i | 0 <= i < |log + [e]| ensures Follows(born, log + [e], i) {
      if i < |log| {
        FollowsGrows(born, born, log, [e], i);
      }
    }
  }

  lemma {:induction false} NewTurnFollows(s: State, log: seq<Note>, a: Action, e: Note)
    requires Sound(s) && Told(s, log) && Legal(s, a) && a.Answer?
    requires e == Asked(s.active.value.uid, Pending(s.active.value.run), a.reply)
    ensures Follows(s.born, log + [e], |log|)
  {
    assert (log + [e])[..|log|] == log;
    assert Waited(s.born, Turns(log), e);
  }

  lemma {:induction false} EndFollows(born: map<Uid, Cluster>, log: seq<Note>, run: Run, e: Note)
    requires log != [] && run.Finished? && e.Ended? && e.outcome == Some(run.outcome)
    requires log[|log| - 1].uid == e.uid && Recalls(Turns(log), run)
    ensures Follows(born, log + [e], |log|) && Turns(log + [e]) == []
  {
    TurnsGrow(log, e);
    assert (log + [e])[..|log|] == log;
  }

  lemma {:induction false} ToldTurn(s: State, log: seq<Note>, a: Action, e: Note)
    requires Sound(s) && Told(s, log) && Legal(s, a) && a.Answer?
    requires e == Asked(s.active.value.uid, Pending(s.active.value.run), a.reply)
    ensures forall i :: 0 <= i < |log + [e]| ==> Follows(s.born, log + [e], i)
    ensures Recalls(Turns(log + [e]), Resume(s.active.value.run, a.reply, a.now))
  {
    EveryAnswerGoesOn(Turns(log), s.active.value.run, a.reply, a.now);
    TurnsGrow(log, e);
    NewTurnFollows(s, log, a, e);
    AllFollow(s.born, log, e);
  }

  lemma {:induction false} ToldEnd(born: map<Uid, Cluster>, log: seq<Note>, run: Run, e: Note)
    requires log != [] && run.Finished? && e == Ended(log[|log| - 1].uid, Some(run.outcome)) && Recalls(Turns(log), run)
    requires forall i :: 0 <= i < |log| ==> Follows(born, log, i)
    ensures Turns(log + [e]) == [] && forall i :: 0 <= i < |log + [e]| ==> Follows(born, log + [e], i)
  {
    EndFollows(born, log, run, e);
    AllFollow(born, log, e);
  }

  lemma {:induction false} ToldAnswer(s: State, log: seq<Note>, a: Action)
    requires Sound(s) && Told(s, log) && Legal(s, a) && a.Answer?
    ensures Told(Step(s, a), log + Noted(s, a))
  {
    var b, run' := s.active.value, Resume(s.active.value.run, a.reply, a.now);
    var e := Asked(b.uid, Pending(b.run), a.reply);
    ToldTurn(s, log, a, e);
    if run'.Finished? {
      var c := Ended(b.uid, Some(run'.outcome));
      ToldEnd(s.born, log + [e], run', c);
      assert log + Noted(s, a) == log + [e] + [c];
    }
  }

  lemma {:induction false} ToldMeanwhile(s: State, log: seq<Note>, a: Action)
    requires ClustersSound(s) && Told(s, log) && Legal(s, a) && !a.Answer? && !a.Crash?
    ensures Told(Step(s, a), log + Noted(s, a))
  {
    var t := Step(s, a);
    assert log + [] == log;
    forall i | 0 <= i < |log| ensures Follows(t.born, log, i) {
      FollowsGrows(s.born, t.born, log, [], i);
    }
  }

  lemma {:induction false} ToldCrash(s: State, log: seq<Note>)
    requires Told(s, log) && Legal(s, Crash)
    ensures Told(Step(s, Crash), log + Noted(s, Crash))
  {
    var e := Ended(s.active.value.uid, None);
    TurnsGrow(log, e);
    assert (log + [e])[..|log|] == log;
    AllFollow(s.born, log, e);
  }

  lemma {:induction false} AlwaysTold(actions: seq<Action>)
    requires Execute(actions).Some?
    ensures Told(Execute(actions).value, Transcript(actions))
  {
    if actions != [] {
      var n := |actions| - 1;
      var s := Execute(actions[..n]).value;
      AlwaysSound(actions[..n]);
      AlwaysTold(actions[..n]);
      if actions[n].Answer? {
        ToldAnswer(s, Transcript(actions[..n]), actions[n]);
      } else if actions[n].Crash? {
        ToldCrash(s, Transcript(actions[..n]));
      } else {
        ToldMeanwhile(s, Transcript(actions[..n]), actions[n]);
      }
    }
  }

  lemma {:induction false} MeetsAllows(step: Next, run: Run, e: Note)
    requires Meets(step, run) && !run.Finished? && e.Asked? && Pending(run) == e.call
    ensures Allows(step, e)
  {}

  lemma {:induction false} FollowsAllows(born: map<Uid, Cluster>, log: seq<Note>, i: nat)
    requires i < |log| && Follows(born, log, i)
    ensures var w := Turns(log[..i]); w != [] ==> w[0].call.GetCluster?
    ensures Allows(Expected(Turns(log[..i])), log[i])
  {
    if log[i].Asked? {
      var run :| Recalls(Turns(log[..i]), run) && !run.Finished? && Pending(run) == log[i].call;
      MeetsAllows(Expected(Turns(log[..i])), run, log[i]);
    }
  }

  /**
   * In every run, each call of a cluster's reconcile, every object that it patches, up to the time of a report, and its
   * result are decided by the answers that the same reconcile got before, unless the process crashes instead.
   */
  lemma HistoryDecides(actions: seq<Action>, i: nat)
    requires Execute(actions).Some? && i < |Transcript(actions)|
    ensures var log := Transcript(actions); var w := Turns(log[..i]);
            && (w != [] ==> i > 0 && log[i].uid == log[i - 1].uid && w[0].call.GetCluster?)
            && Allows(Expected(w), log[i])
  {
    AlwaysTold(actions);
    FollowsAllows(Execute(actions).value.born, Transcript(actions), i);
  }
}
