/** What the cluster reconciler promises about its calls, read off the history of any run. */
module ClusterPromises {
  import opened Prelude
  import opened Api
  import opened ClusterFlow
  import opened ClusterFleet
  import opened ClusterInvariant
  import opened ClusterLaws
  import opened ClusterHistory

  predicate Crashed(e: Note) {
    e.Ended? && e.outcome.None?
  }

  /** A call of this cluster's reconcile. */
  predicate Calls(e: Note, u: Uid) {
    e.Asked? && e.uid == u && Fits(e.call, e.reply)
  }

  /** The point of the conversation at which a call was made, and what comes next. */
  lemma PointOf(actions: seq<Action>, i: nat) returns (w: seq<Turn>, run: Run)
    requires Execute(actions).Some? && i < |Transcript(actions)| && Transcript(actions)[i].Asked?
    ensures var log := Transcript(actions); var born := Execute(actions).value.born; var e := log[i];
            && w == Turns(log[..i]) && Calls(e, e.uid) && (w != [] ==> i > 0 && log[i].uid == log[i - 1].uid)
            && Recalls(w, run) && !run.Finished? && Pending(run) == e.call
            && (HasMemory(run) ==> e.uid in born && BornAs(born[e.uid], run.c))
  {
    AlwaysTold(actions);
    var log, born := Transcript(actions), Execute(actions).value.born;
    w := Turns(log[..i]);
    assert Follows(born, log, i);
    run :| Recalls(w, run) && !run.Finished? && Pending(run) == log[i].call &&
           (HasMemory(run) ==> log[i].uid in born && BornAs(born[log[i].uid], run.c));
  }

  lemma NextTurns(log: seq<Note>, i: nat)
    requires i < |log| && log[i].Asked? && Fits(log[i].call, log[i].reply)
    ensures Turns(log[..i + 1]) == Turns(log[..i]) + [Exchanged(log[i].call, log[i].reply)]
  {
    TurnsGrow(log[..i], log[i]);
    assert log[..i + 1] == log[..i] + [log[i]];
  }

  lemma CallAndNext(actions: seq<Action>, i: nat) returns (w: seq<Turn>, run: Run)
    requires Execute(actions).Some? && i < |Transcript(actions)| && Transcript(actions)[i].Asked?
    ensures var log := Transcript(actions); var born := Execute(actions).value.born; var e := log[i];
            && w == Turns(log[..i]) && Calls(e, e.uid) && (w != [] ==> i > 0 && log[i].uid == log[i - 1].uid)
            && Recalls(w, run) && !run.Finished? && Pending(run) == e.call
            && (HasMemory(run) ==> e.uid in born && BornAs(born[e.uid], run.c))
            && Turns(log[..i + 1]) == w + [Exchanged(e.call, e.reply)]
            && (i + 1 < |log| ==> log[i + 1].uid == e.uid && Allows(Expected(Turns(log[..i + 1])), log[i + 1]))
  {
    w, run := PointOf(actions, i);
    NextTurns(Transcript(actions), i);
    if i + 1 < |Transcript(actions)| {
      HistoryDecides(actions, i + 1);
    }
  }

  /** The answer right before a call. */
  lemma TurnBefore(log: seq<Note>, i: nat)
    requires i <= |log| && Turns(log[..i]) != []
    ensures i > 0 && log[i - 1].Asked? && Last(Turns(log[..i])) == Exchanged(log[i - 1].call, log[i - 1].reply)
  {}

  // ---- the request for a VLAN ----

  /** The text in small letters: every capital of the alphabet is replaced, and nothing else is. */
  predicate InSmallLetters(s: string, t: string) {
    |t| == |s| &&
    forall i :: 0 <= i < |s| ==>
      if 'A' <= s[i] <= 'Z' then t[i] as int == s[i] as int + 32 else t[i] == s[i]
  }

  /** No VLAN of the list has the description. */
  predicate Unlisted(vlans: seq<Vlan>, description: string) {
    forall k :: 0 <= k < |vlans| ==> vlans[k].description != description
  }

  lemma {:induction false} NotFirstIsUnlisted(vlans: seq<Vlan>, description: string)
    requires FirstVlan(vlans, description).None?
    ensures Unlisted(vlans, description)
  {
    if vlans != [] {
      var n := |vlans| - 1;
      NotFirstIsUnlisted(vlans[..n], description);
      forall k | 0 <= k < |vlans| ensures vlans[k].description != description {
        if k < n {
          assert vlans[..n][k] == vlans[k];
        }
      }
    }
  }

  /** A creation is expected only behind a list that failed or shows no VLAN of that description. */
  lemma CreationFollowsList(w: seq<Turn>, run: Run)
    requires Recalls(w, run) && run.Creating?
    ensures w != [] && Last(w).call.ListVlans? && Expected(w) == Ask(PostVlan(Request(run.c)))
    ensures Last(w).reply.vlans.Ok? ==> Unlisted(Last(w).reply.vlans.value, Tag(run.c))
  {
    if Last(w).reply.vlans.Ok? {
      NotFirstIsUnlisted(Last(w).reply.vlans.value, Tag(run.c));
    }
  }

  /** The request is this cluster's own: its project, its location in small letters, and its description. */
  predicate RequestOf(c: Cluster, request: VlanRequest) {
    && c.spec.vlan.Some? && c.spec.project == Some(request.project) && InSmallLetters(c.spec.location, request.site)
    && request.description == "capl-" + c.name + "-" + c.spec.vlan.value.subnet
  }

  lemma RequestIsOwn(c: Cluster)
    requires Asks(c)
    ensures RequestOf(c, Request(c))
  {}

  /**
   * In every run, every creation of a VLAN asks for the project of the cluster as it was applied, for its location in
   * small letters, and for its description; and right before it the VLANs of that project were listed, and none had this
   * description, or the list failed.
   */
  lemma VlanRequestsAreTheClusters(actions: seq<Action>, i: nat, request: VlanRequest)
    requires Execute(actions).Some? && i < |Transcript(actions)|
    requires Transcript(actions)[i].Asked? && Transcript(actions)[i].call == PostVlan(request)
    ensures var log := Transcript(actions); var born, u := Execute(actions).value.born, log[i].uid;
            && u in born && RequestOf(born[u], request)
            && i > 0 && Calls(log[i - 1], u) && log[i - 1].call == ListVlans(request.project)
            && (log[i - 1].reply.vlans.Ok? ==> Unlisted(log[i - 1].reply.vlans.value, request.description))
  {
    var log := Transcript(actions);
    var w, run := CallAndNext(actions, i);
    CreationFollowsList(w, run);
    RequestIsOwn(run.c);
    TurnBefore(log, i);
    ListIsForTheProject(actions, i - 1);
  }

  lemma ListingAsks(w: seq<Turn>, run: Run)
    requires Recalls(w, run) && !run.Finished? && Pending(run).ListVlans?
    ensures HasMemory(run) && run.c.spec.project == Some(Pending(run).project)
  {}

  /** Every list of VLANs is for the project of the cluster as it was applied. */
  lemma ListIsForTheProject(actions: seq<Action>, i: nat)
    requires Execute(actions).Some? && i < |Transcript(actions)|
    requires Transcript(actions)[i].Asked? && Transcript(actions)[i].call.ListVlans?
    ensures var e := Transcript(actions)[i]; var born := Execute(actions).value.born;
            e.uid in born && born[e.uid].spec.project == Some(e.call.project) && Calls(e, e.uid)
  {
    var w, run := PointOf(actions, i);
    ListingAsks(w, run);
  }

  // ---- the location ----

  /** The outcome that goes with the deferred patch. */
  predicate Troubled(step: Next) {
    step.Patch? && step.outcome.Returned? && step.outcome.requeueAfter == 30 && step.outcome.error.Some?
  }

  lemma LocationIsMissed(w: seq<Turn>, run: Run, t: Turn)
    requires Recalls(w, run) && !run.Finished? && t.call == Pending(run) && t.call.GetRegions?
    requires !(t.reply.regions.Ok? && run.c.spec.location in t.reply.regions.value)
    ensures Opened(w + [t]) && Troubled(Expected(w + [t]))
  {
    Extends(w, t);
  }

  lemma TroubleEnds(v: seq<Turn>, t: Turn)
    requires Opened(v) && Troubled(Expected(v)) && t.call.Save?
    ensures Opened(v + [t])
    ensures Expected(v + [t]).Close? && Expected(v + [t]).outcome == Expected(v).outcome
  {
    Extends(v, t);
  }

  /** The reconcile ended with an error, to be retried in half a minute. */
  predicate EndedInTrouble(e: Note) {
    e.Ended? && e.outcome.Some? && e.outcome.value.Returned? &&
    e.outcome.value.requeueAfter == 30 && e.outcome.value.error.Some?
  }

  /**
   * In every run, behind the list of regions: if it lacks the cluster's location, or could not be read, then nothing but
   * the patch comes next, and the reconcile ends with an error, unless the process crashes.
   */
  lemma UnavailableLocationFails(actions: seq<Action>, i: nat)
    requires Execute(actions).Some? && i + 1 < |Transcript(actions)|
    requires var log := Transcript(actions); var born := Execute(actions).value.born;
             log[i].Asked? && log[i].call.GetRegions? && log[i].reply.RegionsAre? && log[i].uid in born &&
             !(log[i].reply.regions.Ok? && born[log[i].uid].spec.location in log[i].reply.regions.value)
    ensures var log := Transcript(actions);
            Crashed(log[i + 1]) ||
            (log[i + 1].Asked? && log[i + 1].call.Save? &&
             (i + 2 < |log| ==> Crashed(log[i + 2]) || EndedInTrouble(log[i + 2])))
  {
    var log := Transcript(actions);
    var w, run := CallAndNext(actions, i);
    LocationIsMissed(w, run, Exchanged(log[i].call, log[i].reply));
    if log[i + 1].Asked? {
      var v, _ := CallAndNext(actions, i + 1);
      TroubleEnds(v, Exchanged(log[i + 1].call, log[i + 1].reply));
    }
  }

  // ---- the endpoint's machine ----

  /** The first Machine with the control-plane label. */
  ghost predicate IsFirst(machines: seq<CapiMachine>, k: nat) {
    k < |machines| && machines[k].controlPlane && forall j :: 0 <= j < k ==> !machines[j].controlPlane
  }

  lemma {:induction false} FirstIsPicked(machines: seq<CapiMachine>)
    ensures forall k: nat :: IsFirst(machines, k) ==> FirstControlPlane(machines) == Some(machines[k])
    ensures (forall k: nat :: !IsFirst(machines, k)) ==> FirstControlPlane(machines) == None
  {
    if machines != [] {
      var n := |machines| - 1;
      var front := machines[..n];
      FirstIsPicked(front);
      forall k: nat | IsFirst(machines, k) ensures FirstControlPlane(machines) == Some(machines[k]) {
        if k < n {
          assert IsFirst(front, k);
        } else {
          NoneIsFirst(front);
        }
      }
      if FirstControlPlane(machines).Some? {
        var k := PickedIsFirst(machines);
      }
    }
  }

  lemma {:induction false} NoneIsFirst(machines: seq<CapiMachine>)
    requires forall j :: 0 <= j < |machines| ==> !machines[j].controlPlane
    ensures FirstControlPlane(machines) == None
  {
    if machines != [] {
      NoneIsFirst(machines[..|machines| - 1]);
    }
  }

  lemma {:induction false} PickedIsFirst(machines: seq<CapiMachine>) returns (k: nat)
    requires FirstControlPlane(machines).Some?
    ensures IsFirst(machines, k)
  {
    var n := |machines| - 1;
    var front := machines[..n];
    if FirstControlPlane(front).Some? {
      k := PickedIsFirst(front);
      assert forall j :: 0 <= j <= k ==> machines[j] == front[j];
    } else {
      k := n;
      NoneLabelled(front);
      assert forall j :: 0 <= j < n ==> machines[j] == front[j];
    }
  }

  lemma {:induction false} NoneLabelled(machines: seq<CapiMachine>)
    requires FirstControlPlane(machines) == None
    ensures forall j :: 0 <= j < |machines| ==> !machines[j].controlPlane
  {
    if machines != [] {
      var n := |machines| - 1;
      NoneLabelled(machines[..n]);
      assert forall j :: 0 <= j < n ==> machines[j] == machines[..n][j];
    }
  }

  /** The object of the first control plane is read, if it has a name; otherwise the reconcile ends with its patch. */
  ghost predicate Inspects(machines: seq<CapiMachine>, e: Note) {
    e.Asked? &&
    (forall k: nat :: IsFirst(machines, k) ==>
       if machines[k].infra.name != "" then e.call == GetInfra(machines[k].infra) else e.call.Save?) &&
    ((forall k: nat :: !IsFirst(machines, k)) ==> e.call.Save?)
  }

  lemma FirstIsInspected(c: Cluster, machines: seq<CapiMachine>, e: Note)
    requires Allows(AfterMachines(c, Ok(machines)), e)
    ensures Crashed(e) || Inspects(machines, e)
  {
    FirstIsPicked(machines);
  }

  lemma MachinesExpected(w: seq<Turn>, run: Run, t: Turn)
    requires Recalls(w, run) && !run.Finished? && t.call == Pending(run) && t.call.ListMachines?
    ensures Opened(w + [t]) && Expected(w + [t]) == AfterMachines(Object(w + [t]), t.reply.machines)
  {
    Extends(w, t);
  }

  /**
   * In every run, behind a list of the cluster's Machines: the object of the first one with the control-plane label is
   * read, if it has a name; otherwise the patch comes next.
   */
  lemma FirstControlPlaneIsInspected(actions: seq<Action>, i: nat, machines: seq<CapiMachine>)
    requires Execute(actions).Some? && i + 1 < |Transcript(actions)|
    requires var e := Transcript(actions)[i]; e.Asked? && e.call.ListMachines? && e.reply == MachinesAre(Ok(machines))
    ensures Crashed(Transcript(actions)[i + 1]) || Inspects(machines, Transcript(actions)[i + 1])
  {
    var log := Transcript(actions);
    var w, run := CallAndNext(actions, i);
    MachinesExpected(w, run, Exchanged(log[i].call, log[i].reply));
    FirstIsInspected(Object(Turns(log[..i + 1])), machines, log[i + 1]);
  }
}
