/** Cooperation is possible: the answers that Progress asks for always exist. */
module Cooperation {
  import opened Prelude
  import opened Text
  import opened Api
  import opened MachineFlow
  import opened MachineSteps
  import opened Fleet
  import opened FleetInvariant
  import opened FailureProvenance
  import opened Progress
  import SshKeys

  const CLUSTER := Cluster("", "", "", false, false, ClusterSpec("site", Some("project"), None),
                           ClusterStatus(false, Endpoint("", 0), None, None, []))

  /** The spec names an operating system and a plan, and no control plane of the namespace has failed. */
  ghost predicate Viable(s: State, u: Uid) {
    && u in s.objects && s.objects[u].spec.os != "" && s.objects[u].spec.plan != ""
    && Healthy(s, s.objects[u].namespace)
  }

  /** The reconcile works on such a spec. */
  predicate Supplied(run: Run) {
    HasMemory(run) ==> run.m.spec.os != "" && run.m.spec.plan != ""
  }

  const IP := "192.0.2.1"

  /** A Ready machine has this address, and no other. */
  predicate Addressed(m: Machine) {
    m.status.ready ==> m.status.addresses == [Address(ExternalIP, IP)]
  }

  /** A running server is reported with this address. */
  predicate Given(reply: Reply) {
    reply.ServerIs? && reply.read.ServerFound? ==> reply.read.server.hostname == "" && reply.read.server.ips == [IP]
  }

  ghost predicate AllAddressed(s: State, u: Uid) {
    (u in s.objects ==> Addressed(s.objects[u])) &&
    (s.active.Some? && HasMemory(s.active.value.run) ==> Addressed(s.active.value.run.m))
  }

  lemma {:induction false} FreshName(used: set<string>) returns (name: string)
    ensures name != "" && forall s :: s in used ==> |s| < |name|
    decreases |used|
  {
    if used == {} {
      name := "x";
    } else {
      var s :| s in used;
      name := FreshName(used - {s});
      name := name + s;
      assert forall t :: t in used ==> t == s || t in used - {s};
    }
  }

  /** A list of some objects of a namespace, with every owner readable. */
  lemma {:induction false} ListOf(s: State, namespace: string, uids: set<Uid>) returns (siblings: seq<Sibling>)
    requires ObjectsSound(s) && Healthy(s, namespace)
    requires forall u :: u in uids ==> u in s.objects && s.objects[u].namespace == namespace
    ensures forall i :: 0 <= i < |siblings| ==>
              var b := siblings[i];
              b.machine.namespace == namespace && b.machine.uid in s.objects && s.objects[b.machine.uid] == b.machine &&
              b.owner.Found? && TrueOwner(s, b.machine.uid, b.owner.value) && !FailedControlPlane(b)
    ensures forall u :: u in uids ==> exists i :: 0 <= i < |siblings| && siblings[i].machine == s.objects[u]
    decreases |uids|
  {
    if uids == {} {
      siblings := [];
    } else {
      var v :| v in uids;
      var rest := ListOf(s, namespace, uids - {v});
      siblings := [Sibling(s.objects[v], Found(Owner(v in s.controlPlanes, s.born[v].cluster, None, None)))] + rest;
      forall u | u in uids ensures exists i :: 0 <= i < |siblings| && siblings[i].machine == s.objects[u] {
        if u == v {
          assert siblings[0].machine == s.objects[u];
        } else {
          var i :| 0 <= i < |rest| && rest[i].machine == s.objects[u];
          assert siblings[i + 1].machine == s.objects[u];
        }
      }
    }
  }

  lemma KindList(s: State, u: Uid, r: nat, denied: set<string>) returns (reply: Reply)
    requires Busy(s, u, r, denied) && Viable(s, u) && s.active.value.run.Listing?
    ensures KindAnswer(s, Answer(reply, 0, None), denied) && Given(reply)
  {
    var namespace := s.active.value.run.m.namespace;
    var siblings := ListOf(s, namespace, set v | v in s.objects && s.objects[v].namespace == namespace);
    reply := SiblingsAre(Found(siblings));
    forall v | v in s.objects && s.objects[v].namespace == namespace
      ensures exists i :: 0 <= i < |siblings| && siblings[i].machine == s.objects[v]
    {}
    assert Lists(s, namespace, siblings);
  }

  lemma KindCreate(s: State, u: Uid, r: nat, denied: set<string>) returns (reply: Reply)
    requires Busy(s, u, r, denied) && s.active.value.run.Creating?
    ensures KindAnswer(s, Answer(reply, 0, None), denied) && Given(reply)
  {
    var id := FreshName(s.issued.Keys);
    reply := Minted(id);
  }

  lemma KindRead(s: State, u: Uid, r: nat, denied: set<string>) returns (reply: Reply)
    requires Busy(s, u, r, denied) && Supplied(s.active.value.run)
    requires !s.active.value.run.Listing? && PhaseOf(s.active.value.run) == Check
    ensures KindAnswer(s, Answer(reply, 0, None), denied) && Given(reply)
  {
    match s.active.value.run
    case Reading => reply := MachineIs(Found(s.objects[u]));
    case Owning(_) => reply := OwnerIs(Found(Owner(u in s.controlPlanes, s.born[u].cluster, None, Some("data"))));
    case Checking(_, _) => reply := ClusterIs(Found(CLUSTER));
    case Placing(_, _) => reply := PlacementIs(Placement(Found(CLUSTER), Missing, Found(CLUSTER)));
  }

  lemma KindPrepare(s: State, u: Uid, r: nat, denied: set<string>) returns (reply: Reply)
    requires Busy(s, u, r, denied) && PhaseOf(s.active.value.run) == Prepare
    ensures KindAnswer(s, Answer(reply, 0, None), denied) && Given(reply)
  {
    match s.active.value.run
    case Polling(m, _) =>
      reply := ServerIs(if m.status.serverID in s.servers - denied then ServerFound(Server(m.status.serverID, "on", "", [IP]))
                        else ServerFailed(""));
    case Bootstrapping(_, _) => reply := SecretIs(Found(map["value" := "x"]));
    case Injecting(_, _) => reply := ClusterIs(Found(CLUSTER));
    case Uploading(_, _) => reply := Minted("data");
    case SavingData(_) => reply := Accepted;
    case Keying(_, _) =>
      reply := SecretIs(Found(map["ssh-key-ids" := ""]));
  }

  lemma KindFinish(s: State, u: Uid, r: nat, denied: set<string>) returns (reply: Reply)
    requires Busy(s, u, r, denied) && Supplied(s.active.value.run)
    requires PhaseOf(s.active.value.run) in {Create, End} && !s.active.value.run.Creating?
    ensures KindAnswer(s, Answer(reply, 0, None), denied) && Given(reply)
  {
    match s.active.value.run
    case Ordering(_, _) => reply := PlacementIs(Placement(Found(CLUSTER), Missing, Found(CLUSTER)));
    case SavingServer(_) | Saving(_, _) | Attaching(_, _) => reply := Accepted;
    case AttachReading(_) => reply := ClusterIs(Found(CLUSTER));
  }

  /** At every point of a cooperative reconcile of a viable machine, some legal answer is cooperative. */
  lemma KindAnswerExists(s: State, u: Uid, r: nat, denied: set<string>) returns (reply: Reply)
    requires Busy(s, u, r, denied) && Viable(s, u) && Supplied(s.active.value.run)
    ensures KindAnswer(s, Answer(reply, 0, None), denied) && Given(reply)
  {
    var run := s.active.value.run;
    if run.Listing? {
      reply := KindList(s, u, r, denied);
    } else if run.Creating? {
      reply := KindCreate(s, u, r, denied);
    } else if PhaseOf(run) == Check {
      reply := KindRead(s, u, r, denied);
    } else if PhaseOf(run) == Prepare {
      reply := KindPrepare(s, u, r, denied);
    } else {
      reply := KindFinish(s, u, r, denied);
    }
  }

  lemma SpecKept(s: State, a: Action, u: Uid)
    requires Sound(s) && Legal(s, a) && a.Answer? && Viable(s, u)
    requires u in Step(s, a).objects ==> Step(s, a).objects[u].status.failureReason.None?
    requires s.active.value.uid == u
    ensures Viable(Step(s, a), u)
  {
    var run' := Resume(s.active.value.run, a.reply, a.now);
    ObjectsAdvance(s, a.reply, a.side, run');
  }

  lemma SupplyKept(run: Run, reply: Reply, now: int)
    requires !run.Finished? && Fits(Pending(run), reply) && Shape(run) && Supplied(run)
    requires run.Reading? && reply.machine.Found? ==> reply.machine.value.spec.os != "" && reply.machine.value.spec.plan != ""
    ensures Supplied(Resume(run, reply, now)) && CallsLeft(Resume(run, reply, now)) < CallsLeft(run)
  {
    EveryChange(run, reply, now);
  }

  /** A cooperative answer keeps the machine viable, and leaves fewer calls to come. */
  lemma StaysViable(s: State, u: Uid, r: nat, a: Action, denied: set<string>)
    requires Busy(s, u, r, denied) && KindAnswer(s, a, denied) && Viable(s, u) && Supplied(s.active.value.run)
    ensures var t := Step(s, a);
            Viable(t, u) &&
            (t.active.Some? ==> Supplied(t.active.value.run) && CallsLeft(t.active.value.run) < CallsLeft(s.active.value.run))
  {
    KindStep(s, a, u, r, denied);
    SpecKept(s, a, u);
    SupplyKept(s.active.value.run, a.reply, a.now);
  }

  lemma AddressKept(run: Run, reply: Reply, now: int)
    requires !run.Finished? && Fits(Pending(run), reply) && Shape(run) && Given(reply)
    requires HasMemory(run) ==> Addressed(run.m)
    requires run.Reading? && reply.machine.Found? ==> Addressed(reply.machine.value)
    ensures HasMemory(Resume(run, reply, now)) ==> Addressed(Resume(run, reply, now).m)
  {
    EveryChange(run, reply, now);
  }

  lemma AddressesKept(s: State, u: Uid, r: nat, a: Action, denied: set<string>)
    requires Busy(s, u, r, denied) && KindAnswer(s, a, denied) && Given(a.reply) && AllAddressed(s, u)
    ensures AllAddressed(Step(s, a), u)
  {
    AddressKept(s.active.value.run, a.reply, a.now);
    ObjectsAdvance(s, a.reply, a.side, Resume(s.active.value.run, a.reply, a.now));
  }

  /** A cooperative reconcile that has begun can be completed. */
  lemma {:induction false} Complete(s: State, u: Uid, start: seq<Action>, denied: set<string>) returns (all: seq<Action>)
    requires Steady(s, denied) && u in s.objects && Eligible(s.objects[u]) && !s.objects[u].status.ready
    requires CooperativeStart(s, u, start, denied)
    requires var t := ExecuteFrom(s, start).value;
             Viable(t, u) && (t.active.Some? ==> Supplied(t.active.value.run)) && AllAddressed(t, u)
    ensures CooperativeReconcile(s, u, all, denied) && Viable(ExecuteFrom(s, all).value, u)
    ensures AllAddressed(ExecuteFrom(s, all).value, u)
    decreases var t := ExecuteFrom(s, start).value; if t.active.Some? then 1 + CallsLeft(t.active.value.run) else 0
  {
    var t, r := ExecuteFrom(s, start).value, Rank(s, u, denied);
    PrefixOnTrack(s, u, start, |start|, denied);
    assert start[..|start|] == start;
    if t.active.None? {
      all := start;
    } else {
      var reply := KindAnswerExists(t, u, r, denied);
      var a := Answer(reply, 0, None);
      StaysViable(t, u, r, a, denied);
      AddressesKept(t, u, r, a, denied);
      var next := start + [a];
      Extends(s, u, start, a, denied);
      all := Complete(s, u, next, denied);
    }
  }

  lemma Extends(s: State, u: Uid, start: seq<Action>, a: Action, denied: set<string>)
    requires CooperativeStart(s, u, start, denied) && KindAnswer(ExecuteFrom(s, start).value, a, denied)
    ensures CooperativeStart(s, u, start + [a], denied)
    ensures ExecuteFrom(s, start + [a]) == Some(Step(ExecuteFrom(s, start).value, a))
  {
    var next := start + [a];
    assert next[..|start|] == start;
    forall i | 0 < i < |next|
      ensures var before := ExecuteFrom(s, next[..i]); before.Some? && KindAnswer(before.value, next[i], denied)
    {
      if i < |start| {
        assert next[..i] == start[..i];
      }
    }
  }

  lemma Begun(s: State, u: Uid, denied: set<string>)
    requires Sound(s) && s.active.None? && Viable(s, u)
    ensures CooperativeStart(s, u, [Begin(u)], denied) && ExecuteFrom(s, [Begin(u)]) == Some(Step(s, Begin(u)))
    ensures Viable(Step(s, Begin(u)), u) && Step(s, Begin(u)).active.value.run.Reading?
  {
    var start := [Begin(u)];
    assert start[..0] == [] && ExecuteFrom(s, start[..0]) == Some(s);
  }

  /** One cooperative reconcile of a viable machine is possible. */
  lemma ServeOnce(s: State, u: Uid, denied: set<string>) returns (all: seq<Action>)
    requires Steady(s, denied) && s.active.None? && Viable(s, u) && Eligible(s.objects[u]) && !s.objects[u].status.ready
    ensures CooperativeReconcile(s, u, all, denied)
    ensures var t := ExecuteFrom(s, all).value;
            Viable(t, u) && Idle(t, u, Rank(s, u, denied), denied) && Addressed(t.objects[u])
  {
    Begun(s, u, denied);
    all := Complete(s, u, [Begin(u)], denied);
    ReconcileLowersRank(s, u, all, denied);
  }

  /** A round with nothing in between. */
  lemma ServeRound(s: State, u: Uid, denied: set<string>) returns (round: Round)
    requires Steady(s, denied) && s.active.None? && Viable(s, u) && Eligible(s.objects[u]) && !s.objects[u].status.ready
    ensures Allowed(s, u, round, denied)
    ensures var t := AfterRound(s, u, round, denied);
            Viable(t, u) && Idle(t, u, Rank(s, u, denied), denied)
  {
    var all := ServeOnce(s, u, denied);
    round := Round([], all);
    assert ExecuteFrom(s, []) == Some(s);
  }

  /** Any number of rounds is possible until the machine is Ready. */
  lemma {:induction false} Serve(s: State, u: Uid, n: nat, denied: set<string>) returns (rs: seq<Round>)
    requires Steady(s, denied) && s.active.None? && Viable(s, u) && Eligible(s.objects[u])
    ensures |rs| == n && Rounds(s, u, rs, denied).Some?
    decreases n
  {
    if n == 0 {
      rs := [];
    } else if s.objects[u].status.ready {
      rs := seq(n, _ => Round([], []));
    } else {
      var round := ServeRound(s, u, denied);
      var rest := Serve(AfterRound(s, u, round, denied), u, n - 1, denied);
      rs := [round] + rest;
      assert rs[1..] == rest;
    }
  }

  /**
   * From any reachable state in which no reconcile is running, three cooperative reconciles exist for a machine that is
   * neither paused, nor being deleted, nor failed, whose spec names an operating system and a plan, and whose namespace
   * has no failed control plane; and they make it Ready.
   */
  lemma CooperationReachesReady(history: seq<Action>, u: Uid, denied: set<string>) returns (rs: seq<Round>)
    requires Execute(history).Some?
    requires var s := Execute(history).value;
             s.active.None? && Viable(s, u) && Eligible(s.objects[u]) && denied <= s.issued.Keys
    ensures |rs| == 3 && Rounds(Execute(history).value, u, rs, denied).Some?
    ensures var t := Rounds(Execute(history).value, u, rs, denied).value; u in t.objects && t.objects[u].status.ready
  {
    AlwaysSound(history);
    AlwaysNamed(history);
    rs := Serve(Execute(history).value, u, 3, denied);
    ThreeReconcilesReachReady(history, u, rs, denied);
  }
}
