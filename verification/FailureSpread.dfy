/**
 * The check for a failed control plane goes by the namespace, not by the cluster: exactly when the two agree, and
 * exactly when a failure spreads from one machine to another.
 */
module FailureSpread {
  import opened Prelude
  import opened Text
  import opened Conditions
  import opened Api
  import opened UserData
  import opened MachineFlow
  import opened MachineSteps
  import opened Fleet
  import opened FleetInvariant
  import opened FailureProvenance
  import ServerLeak

  // ---- one list ----

  /** The same machines, by their owners; what has become of them may differ. */
  predicate SameOwners(l: seq<Sibling>, o: seq<Sibling>) {
    |l| == |o| && forall k :: 0 <= k < |l| ==> o[k].owner == l[k].owner
  }

  /** What a check by cluster would look for. */
  predicate OwnFailure(l: seq<Sibling>, cluster: string) {
    exists k :: 0 <= k < |l| && FailedControlPlane(l[k]) && l[k].owner.value.cluster == cluster
  }

  /** Some listed control plane belongs to another cluster. */
  predicate Foreign(l: seq<Sibling>, cluster: string) {
    exists k :: 0 <= k < |l| && l[k].owner.Found? && l[k].owner.value.controlPlane && l[k].owner.value.cluster != cluster
  }

  const SOUND := Machine("", "", "", 0, false, false, false, MachineSpec("", "", None, None),
                         MachineStatus(false, "", "", "", [], None, None, []))
  const FAILED := SOUND.(status := SOUND.status.(failureReason := Some("CreateError")))

  /** The check goes by the cluster, whatever becomes of the listed machines, if and only if none is foreign. */
  lemma CheckIsByCluster(l: seq<Sibling>, cluster: string)
    ensures (forall o: seq<Sibling> :: SameOwners(l, o) ==> (SawFailure(o) <==> OwnFailure(o, cluster))) <==>
            !Foreign(l, cluster)
  {
    if Foreign(l, cluster) {
      var k :| 0 <= k < |l| && l[k].owner.Found? && l[k].owner.value.controlPlane && l[k].owner.value.cluster != cluster;
      var o: seq<Sibling> := seq(|l|, i requires 0 <= i < |l| => Sibling(if i == k then FAILED else SOUND, l[i].owner));
      assert SameOwners(l, o) && FailedControlPlane(o[k]) && !OwnFailure(o, cluster);
    } else {
      forall o: seq<Sibling> | SameOwners(l, o) ensures SawFailure(o) <==> OwnFailure(o, cluster) {
        if SawFailure(o) {
          var k :| 0 <= k < |o| && FailedControlPlane(o[k]);
          assert l[k].owner == o[k].owner;
        }
      }
    }
  }

  // ---- runs ----

  /** A control-plane machine v of cluster a, and a worker w of cluster b, as they are applied. */
  datatype Cast = Cast(v: Machine, w: Machine, a: string, b: string)

  ghost predicate Fresh(c: Cast) {
    Blank(c.v) && Blank(c.w) && c.v.uid != c.w.uid
  }

  /**
   * A reconcile of w listed the namespace and found v there, failed and of cluster a, and no other failed control
   * plane; and the next thing that happened is that it saved w as failed.
   */
  ghost predicate Marks(log: seq<Event>, i: nat, c: Cast) {
    && i + 1 < |log|
    && var e, next := log[i], log[i + 1];
    && e.Exchange? && e.uid == c.w.uid && e.call.ListSiblings? && e.reply.SiblingsAre? && e.reply.siblings.Found?
    && var l := e.reply.siblings.value;
    && (exists k :: 0 <= k < |l| && FailedControlPlane(l[k]))
    && (forall k :: 0 <= k < |l| && FailedControlPlane(l[k]) ==>
          l[k].machine.uid == c.v.uid && l[k].owner.value.cluster == c.a)
    && next.Exchange? && next.uid == c.w.uid && next.call.Save? && next.reply.Accepted?
    && next.call.machine.status.failureReason.Some?
  }

  /** The failure of v has spread to w, which never had an error of its own. */
  ghost predicate Spreads(s: State, i: nat, c: Cast) {
    && c.v.uid in s.born && s.born[c.v.uid] == Birth(c.v, c.a) && c.v.uid in s.controlPlanes
    && c.w.uid in s.born && s.born[c.w.uid] == Birth(c.w, c.b) && c.w.uid !in s.controlPlanes
    && c.w.uid in s.objects && s.objects[c.w.uid].status.failureReason.Some?
    && !HadError(s.log, c.w.uid) && Marks(s.log, i, c)
  }

  // ---- a failure stays in the namespace ----

  /** Objects stay in the namespace in which they were applied, and lists show them there. */
  ghost predicate ListedAt(s: State, e: Event) {
    e.Exchange? && e.call.ListSiblings? && e.reply.SiblingsAre? && e.reply.siblings.Found? ==>
      && e.uid in s.born
      && forall k :: 0 <= k < |e.reply.siblings.value| ==>
           var m := e.reply.siblings.value[k].machine;
           m.uid in s.born && s.born[m.uid].machine.namespace == s.born[e.uid].machine.namespace
  }

  ghost predicate Settled(s: State) {
    && (forall u :: u in s.objects ==> u in s.born && s.objects[u].namespace == s.born[u].machine.namespace)
    && (forall i :: 0 <= i < |s.log| ==> ListedAt(s, s.log[i]))
  }

  lemma ListedStays(s: State, t: State, e: Event)
    requires ListedAt(s, e) && forall u :: u in s.born ==> u in t.born && t.born[u] == s.born[u]
    ensures ListedAt(t, e)
  {}

  lemma TrueListSettled(s: State, u: Uid, namespace: string, l: seq<Sibling>, k: nat)
    requires Settled(s) && Lists(s, namespace, l) && k < |l| && u in s.objects && s.objects[u].namespace == namespace
    ensures var m := l[k].machine;
            m.uid in s.born && u in s.born && s.born[m.uid].machine.namespace == s.born[u].machine.namespace
  {
    assert s.objects[l[k].machine.uid].namespace == s.born[l[k].machine.uid].machine.namespace;
  }

  lemma NewListSettled(s: State, reply: Reply, side: Option<string>, run': Run)
    requires Sound(s) && Settled(s) && Answered(s, reply, side, run')
    ensures var a := s.active.value; ListedAt(Advance(s, reply, side, run'), Exchange(a.uid, Pending(a.run), reply))
  {
    var a := s.active.value;
    if a.run.Listing? && reply.siblings.Found? {
      forall k | 0 <= k < |reply.siblings.value|
        ensures var m := reply.siblings.value[k].machine;
                m.uid in s.born && s.born[m.uid].machine.namespace == s.born[a.uid].machine.namespace
      {
        TrueListSettled(s, a.uid, a.run.m.namespace, reply.siblings.value, k);
      }
    }
  }

  lemma SettledAdvance(s: State, reply: Reply, side: Option<string>, run': Run)
    requires Sound(s) && Settled(s) && Answered(s, reply, side, run')
    ensures Settled(Advance(s, reply, side, run'))
  {
    var t := Advance(s, reply, side, run');
    ObjectsAdvance(s, reply, side, run');
    NewListSettled(s, reply, side, run');
    forall i | 0 <= i < |t.log| ensures ListedAt(t, t.log[i]) {
      if i < |s.log| {
        ListedStays(s, t, s.log[i]);
      }
    }
  }

  lemma SettledMeanwhile(s: State, a: Action)
    requires ObjectsSound(s) && Settled(s) && Legal(s, a) && !a.Answer?
    ensures Settled(Step(s, a))
  {
    var t := Step(s, a);
    forall i | 0 <= i < |t.log| ensures ListedAt(t, t.log[i]) {
      if i < |s.log| {
        ListedStays(s, t, s.log[i]);
      }
    }
  }

  lemma SettledStep(s: State, a: Action)
    requires Sound(s) && Settled(s) && Legal(s, a)
    ensures Settled(Step(s, a))
  {
    if a.Answer? {
      var run' := AnswerAdvances(s, a);
      SettledAdvance(s, a.reply, a.side, run');
    } else {
      SettledMeanwhile(s, a);
    }
  }

  lemma {:induction false} AlwaysSettled(actions: seq<Action>)
    requires Execute(actions).Some?
    ensures Settled(Execute(actions).value)
  {
    if actions != [] {
      var n := |actions| - 1;
      AlwaysSound(actions[..n]);
      AlwaysSettled(actions[..n]);
      SettledStep(Execute(actions[..n]).value, actions[n]);
    }
  }

  lemma SpreadsInNamespace(actions: seq<Action>, i: nat, c: Cast)
    requires Execute(actions).Some? && Spreads(Execute(actions).value, i, c)
    ensures c.v.namespace == c.w.namespace
  {
    AlwaysSettled(actions);
    var s := Execute(actions).value;
    assert ListedAt(s, s.log[i]);
    var l := s.log[i].reply.siblings.value;
    var k :| 0 <= k < |l| && FailedControlPlane(l[k]);
  }

  // ---- and within the namespace it spreads, whatever the clusters ----

  /** An event of u that cannot be an error of its own: the calls of the checks, and patches. */
  predicate Plain(e: Event, u: Uid) {
    e.uid == u && e.Exchange? ==>
      e.call.GetMachine? || e.call.GetOwner? || e.call.GetCluster? || e.call.ListSiblings? || e.call.Save?
  }

  ghost predicate AllPlain(log: seq<Event>, u: Uid) {
    forall i :: 0 <= i < |log| ==> Plain(log[i], u)
  }

  lemma PlainIsInnocent(log: seq<Event>, u: Uid)
    requires AllPlain(log, u)
    ensures !HadError(log, u)
  {
    forall i | 0 <= i < |log| ensures !PermanentError(log[i], u) {
      assert Plain(log[i], u);
    }
  }

  lemma Take(s: State, start: seq<Action>, a: Action) returns (actions: seq<Action>)
    requires ExecuteFrom(s, start).Some? && Legal(ExecuteFrom(s, start).value, a)
    ensures actions == start + [a]
    ensures ExecuteFrom(s, actions) == Some(Step(ExecuteFrom(s, start).value, a))
  {
    actions := start + [a];
    assert actions[..|actions| - 1] == start;
  }

  /** An answer that changes neither an object nor a server. */
  predicate Asks(run: Run, reply: Reply) {
    && !run.Finished? && !Pending(run).DeleteServer?
    && (Pending(run).Save? || Pending(run).CreateServer? ==> reply.Refused?)
  }

  lemma Ask(s: State, start: seq<Action>, reply: Reply) returns (actions: seq<Action>)
    requires ExecuteFrom(s, start).Some? && Legal(ExecuteFrom(s, start).value, Answer(reply, 0, None))
    requires var run := ExecuteFrom(s, start).value.active.value.run; Asks(run, reply) && !Resume(run, reply, 0).Finished?
    ensures var t := ExecuteFrom(s, start).value; var a := t.active.value;
            ExecuteFrom(s, actions) ==
            Some(t.(active := Some(Track(a, reply, Resume(a.run, reply, 0))),
                    log := t.log + [Exchange(a.uid, Pending(a.run), reply)]))
  {
    actions := Take(s, start, Answer(reply, 0, None));
  }

  // ---- the two machines between reconciles, and in the middle of one ----

  /** Both are there, v and w now; w has had no error. */
  ghost predicate Scene(s: State, c: Cast, v: Machine, w: Machine) {
    && s.active.None? && s.objects == map[c.v.uid := v, c.w.uid := w]
    && s.controlPlanes == {c.v.uid} && s.known == {c.v.uid, c.w.uid}
    && s.born == map[c.v.uid := Birth(c.v, c.a), c.w.uid := Birth(c.w, c.b)]
    && AllPlain(s.log, c.w.uid)
  }

  /** The same, while a reconcile of u stands at some point. */
  ghost predicate Stage(t: Option<State>, c: Cast, v: Machine, w: Machine, u: Uid, run: Run) {
    t.Some? && t.value.active.Some? && t.value.active.value.uid == u && t.value.active.value.run == run &&
    Scene(t.value.(active := None), c, v, w)
  }

  /** One leg of a reconcile. */
  ghost predicate Leg(run: Run, reply: Reply, run': Run) {
    !run.Finished? && Asks(run, reply) && Fits(Pending(run), reply) && !run'.Finished? && Resume(run, reply, 0) == run'
  }

  /** Answers that the contracts leave open. */
  predicate Easy(run: Run, reply: Reply)
    requires !run.Finished?
  {
    match Pending(run)
    case Save(_) => reply.Refused?
    case CreateServer(_) => reply.Refused?
    case GetCluster => true
    case GetPlacement => true
    case GetBootstrap(_) => true
    case CreateUserData(_, _) => true
    case _ => false
  }

  /** An answer takes it to the next point. */
  lemma Next(s: State, start: seq<Action>, c: Cast, v: Machine, w: Machine, u: Uid, run: Run, reply: Reply, run': Run)
    returns (actions: seq<Action>)
    requires Stage(ExecuteFrom(s, start), c, v, w, u, run) && Leg(run, reply, run')
    requires Easy(run, reply) || Truthful(ExecuteFrom(s, start).value, u, run, reply)
    requires Plain(Exchange(u, Pending(run), reply), c.w.uid)
    ensures Stage(ExecuteFrom(s, actions), c, v, w, u, run')
    ensures var t, t' := ExecuteFrom(s, start).value, ExecuteFrom(s, actions).value;
            t'.log == t.log + [Exchange(u, Pending(run), reply)]
  {
    actions := Ask(s, start, reply);
  }

  lemma PatchTaken(s: State, start: seq<Action>) returns (actions: seq<Action>)
    requires ExecuteFrom(s, start).Some? && ExecuteFrom(s, start).value.active.Some?
    requires var t := ExecuteFrom(s, start).value; t.active.value.run.Saving? && t.active.value.uid in t.objects
    ensures ExecuteFrom(s, actions).Some?
    ensures var t, t' := ExecuteFrom(s, start).value, ExecuteFrom(s, actions).value; var a := t.active.value;
            && t'.active.None? && t'.objects == t.objects[a.uid := Patched(t.objects[a.uid], a.run.m)]
            && t'.controlPlanes == t.controlPlanes && t'.known == t.known && t'.born == t.born
            && t'.log == t.log + ([Exchange(a.uid, Save(a.run.m), Accepted)]
                                  + [Closed(a.uid, false, false, Some(a.run.outcome))])
  {
    actions := Take(s, start, Answer(Accepted, 0, None));
  }

  lemma AddPlain(log: seq<Event>, more: seq<Event>, u: Uid)
    requires AllPlain(log, u) && AllPlain(more, u)
    ensures AllPlain(log + more, u)
  {
    forall i | 0 <= i < |log + more| ensures Plain((log + more)[i], u) {
      if i >= |log| {
        assert (log + more)[i] == more[i - |log|];
      }
    }
  }

  lemma SceneAfterPatch(t: State, t': State, c: Cast, v: Machine, w: Machine, u: Uid, q: Machine, more: seq<Event>)
    requires Fresh(c) && Scene(t.(active := None), c, v, w) && (u == c.v.uid || u == c.w.uid) && AllPlain(more, c.w.uid)
    requires t'.active.None? && t'.objects == t.objects[u := q] && t'.log == t.log + more
    requires t'.controlPlanes == t.controlPlanes && t'.known == t.known && t'.born == t.born
    ensures if u == c.v.uid then Scene(t', c, q, w) else Scene(t', c, v, q)
  {
    AddPlain(t.log, more, c.w.uid);
  }

  /** The deferred patch succeeds. */
  lemma Close(s: State, start: seq<Action>, c: Cast, v: Machine, w: Machine, u: Uid, run: Run) returns (actions: seq<Action>)
    requires Fresh(c) && Stage(ExecuteFrom(s, start), c, v, w, u, run) && run.Saving? && (u == c.v.uid || u == c.w.uid)
    ensures ExecuteFrom(s, actions).Some?
    ensures var t := ExecuteFrom(s, actions).value;
            if u == c.v.uid then Scene(t, c, Patched(v, run.m), w) else Scene(t, c, v, Patched(w, run.m))
    ensures var log, log' := ExecuteFrom(s, start).value.log, ExecuteFrom(s, actions).value.log;
            |log| < |log'| && log'[..|log|] == log && log'[|log|] == Exchange(u, Save(run.m), Accepted)
  {
    actions := PatchTaken(s, start);
    var t := ExecuteFrom(s, start).value;
    var more := [Exchange(u, Save(run.m), Accepted)] + [Closed(u, false, false, Some(run.outcome))];
    SceneAfterPatch(t, ExecuteFrom(s, actions).value, c, v, w, u, Patched(t.objects[u], run.m), more);
  }

  lemma ReadingEnters(m: Machine)
    ensures Resume(Reading, MachineIs(Found(m)), 0) == Enter(m) && !Enter(m).Finished?
  {}

  lemma Opened(s: State, c: Cast, v: Machine, w: Machine, u: Uid) returns (actions: seq<Action>)
    requires Scene(s, c, v, w) && (u == c.v.uid || u == c.w.uid)
    ensures Stage(ExecuteFrom(s, actions), c, v, w, u, Reading)
  {
    assert ExecuteFrom(s, []) == Some(s);
    actions := Take(s, [], Begin(u));
  }

  lemma Entered(s: State, c: Cast, v: Machine, w: Machine, u: Uid) returns (actions: seq<Action>)
    requires Scene(s, c, v, w) && (u == c.v.uid || u == c.w.uid)
    ensures Stage(ExecuteFrom(s, actions), c, v, w, u, Enter(s.objects[u]))
  {
    ReadingEnters(s.objects[u]);
    actions := Opened(s, c, v, w, u);
    actions := Next(s, actions, c, v, w, u, Reading, MachineIs(Found(s.objects[u])), Enter(s.objects[u]));
  }

  /** A machine before its first reconcile. */
  predicate New(m: Machine) {
    !m.paused && !m.deleting && !m.finalizer
  }

  lemma AddFinalizer(s: State, c: Cast, v: Machine, w: Machine, u: Uid) returns (actions: seq<Action>)
    requires Fresh(c) && Scene(s, c, v, w) && (u == c.v.uid || u == c.w.uid) && New(s.objects[u])
    ensures ExecuteFrom(s, actions).Some?
    ensures var t := ExecuteFrom(s, actions).value;
            if u == c.v.uid then Scene(t, c, v.(finalizer := true), w) else Scene(t, c, v, w.(finalizer := true))
  {
    var m := s.objects[u];
    actions := Entered(s, c, v, w, u);
    actions := Close(s, actions, c, v, w, u, Saving(m.(finalizer := true), DONE));
    assert Patched(m, m.(finalizer := true)) == m.(finalizer := true);
  }

  // ---- the control plane fails for lack of stock ----

  const CLUSTER := Cluster("", "", "", false, false, ClusterSpec("site", Some("project"), None),
                           ClusterStatus(false, Endpoint("", 0), None, None, []))
  const PLACEMENT := Placement(Found(CLUSTER), Missing, Found(CLUSTER))
  const SECRET: map<string, string> := map["value" := "x"]

  function OwnerOf(c: Cast, u: Uid): Owner {
    if u == c.v.uid then Owner(true, c.a, None, Some("data")) else Owner(false, c.b, None, Some("data"))
  }

  /** A machine that only waits for its server. */
  ghost predicate Waiting(m: Machine) {
    && !m.paused && !m.deleting && m.finalizer && !m.status.ready && m.status.failureReason.None?
    && m.status.serverID == "" && m.status.userDataID == "" && m.spec.sshKeys.None? && m.spec.os != "" && m.spec.plan != ""
  }

  lemma OwnerLeg(v: Machine, o: Owner)
    requires Waiting(v) && o.controlPlane
    ensures Enter(v) == Owning(v) && Leg(Owning(v), OwnerIs(Found(o)), Placing(v, o))
  {}

  lemma PlaceLeg(v: Machine, o: Owner)
    requires Waiting(v) && o.dataSecret == Some("data")
    ensures Leg(Placing(v, o), PlacementIs(PLACEMENT), Bootstrapping(v, "data"))
  {}

  lemma SecretLeg(v: Machine)
    ensures Leg(Bootstrapping(v, "data"), SecretIs(Found(SECRET)), Injecting(v, "x"))
  {}

  lemma UploadLeg(v: Machine, data: UserData)
    requires v.status.userDataID == "" && data == UserData(v.name, "x", Some(CLUSTER))
    ensures Leg(Injecting(v, "x"), ClusterIs(Found(CLUSTER)), Uploading(v, data))
  {}

  lemma MintLeg(v: Machine, d: Machine, data: UserData)
    requires d == v.(status := v.status.(userDataID := "data"))
    ensures Leg(Uploading(v, data), Minted("data"), SavingData(d))
  {}

  lemma LostPatchLeg(d: Machine)
    requires d.spec.sshKeys.None?
    ensures Leg(SavingData(d), Refused(""), Ordering(d, []))
  {}

  function SpecOf(d: Machine): ServerSpec {
    ServerSpec("project", d.spec.plan, d.spec.os, "site", d.namespace + "-" + d.name, [], d.status.userDataID)
  }

  lemma OrderLeg(d: Machine)
    ensures Leg(Ordering(d, []), PlacementIs(PLACEMENT), Creating(d, SpecOf(d)))
  {}

  lemma OutOfStockIsPermanent()
    ensures IsPermanent("failed to create server: " + "SERVERS_OUT_OF_STOCK")
  {
    var code := "SERVERS_OUT_OF_STOCK";
    assert At(code, code, 0);
    assert Contains(code, PERMANENT_CODES[0]);
    OrderErrorIsPermanent(code);
  }

  lemma NoStockLeg(d: Machine) returns (run': Run)
    ensures Leg(Creating(d, SpecOf(d)), Refused("SERVERS_OUT_OF_STOCK"), run') && run'.Saving?
    ensures run'.m.status.failureReason.Some?
  {
    OutOfStockIsPermanent();
    run' := Resume(Creating(d, SpecOf(d)), Refused("SERVERS_OUT_OF_STOCK"), 0);
  }

  /** A reconcile of v up to the check of its spec. */
  lemma Place(s: State, c: Cast, v: Machine, w: Machine) returns (actions: seq<Action>)
    requires Fresh(c) && Scene(s, c, v, w) && Waiting(v)
    ensures Stage(ExecuteFrom(s, actions), c, v, w, c.v.uid, Placing(v, OwnerOf(c, c.v.uid)))
  {
    var u, o := c.v.uid, OwnerOf(c, c.v.uid);
    OwnerLeg(v, o);
    actions := Entered(s, c, v, w, u);
    actions := Next(s, actions, c, v, w, u, Owning(v), OwnerIs(Found(o)), Placing(v, o));
  }

  /** On to its bootstrap data. */
  lemma Prepare(s: State, c: Cast, v: Machine, w: Machine) returns (actions: seq<Action>)
    requires Fresh(c) && Scene(s, c, v, w) && Waiting(v)
    ensures Stage(ExecuteFrom(s, actions), c, v, w, c.v.uid, Injecting(v, "x"))
  {
    var u, o := c.v.uid, OwnerOf(c, c.v.uid);
    PlaceLeg(v, o);
    SecretLeg(v);
    actions := Place(s, c, v, w);
    actions := Next(s, actions, c, v, w, u, Placing(v, o), PlacementIs(PLACEMENT), Bootstrapping(v, "data"));
    actions := Next(s, actions, c, v, w, u, Bootstrapping(v, "data"), SecretIs(Found(SECRET)), Injecting(v, "x"));
  }

  /** On to new user data. */
  lemma Upload(s: State, c: Cast, v: Machine, w: Machine, d: Machine) returns (actions: seq<Action>)
    requires Fresh(c) && Scene(s, c, v, w) && Waiting(v) && d == v.(status := v.status.(userDataID := "data"))
    ensures Stage(ExecuteFrom(s, actions), c, v, w, c.v.uid, SavingData(d))
  {
    var data := UserData(v.name, "x", Some(CLUSTER));
    UploadLeg(v, data);
    MintLeg(v, d, data);
    actions := Prepare(s, c, v, w);
    actions := Next(s, actions, c, v, w, c.v.uid, Injecting(v, "x"), ClusterIs(Found(CLUSTER)), Uploading(v, data));
    actions := Next(s, actions, c, v, w, c.v.uid, Uploading(v, data), Minted("data"), SavingData(d));
  }

  /** On to its order; the patch of the user data is lost on the way, and there is no stock. */
  lemma FailControlPlane(s: State, c: Cast, v: Machine, w: Machine) returns (actions: seq<Action>, v': Machine)
    requires Fresh(c) && Scene(s, c, v, w) && Waiting(v)
    ensures ExecuteFrom(s, actions).Some? && Scene(ExecuteFrom(s, actions).value, c, v', w)
    ensures v'.status.failureReason.Some? && v'.namespace == v.namespace && v'.uid == v.uid
  {
    var d := v.(status := v.status.(userDataID := "data"));
    LostPatchLeg(d);
    OrderLeg(d);
    var run' := NoStockLeg(d);
    actions := Upload(s, c, v, w, d);
    actions := Next(s, actions, c, v, w, c.v.uid, SavingData(d), Refused(""), Ordering(d, []));
    actions := Next(s, actions, c, v, w, c.v.uid, Ordering(d, []), PlacementIs(PLACEMENT), Creating(d, SpecOf(d)));
    actions := Next(s, actions, c, v, w, c.v.uid, Creating(d, SpecOf(d)), Refused("SERVERS_OUT_OF_STOCK"), run');
    actions := Close(s, actions, c, v, w, c.v.uid, run');
    v' := Patched(v, run'.m);
  }

  // ---- the worker sees it ----

  lemma WorkerLegs(w: Machine, o: Owner)
    requires !w.paused && !w.deleting && w.finalizer && !w.status.ready && w.status.failureReason.None? && !o.controlPlane
    ensures Enter(w) == Owning(w) && Leg(Owning(w), OwnerIs(Found(o)), Checking(w, o))
    ensures Leg(Checking(w, o), ClusterIs(Found(CLUSTER)), Listing(w, o))
  {}

  lemma ListLeg(w: Machine, o: Owner, l: seq<Sibling>) returns (run': Run)
    requires |l| > 0 && FailedControlPlane(l[0])
    ensures Leg(Listing(w, o), SiblingsAre(Found(l)), run') && run'.Saving?
    ensures run'.m.status.failureReason.Some?
  {
    run' := Resume(Listing(w, o), SiblingsAre(Found(l)), 0);
  }

  function BothListed(c: Cast, v: Machine, w: Machine): seq<Sibling> {
    [Sibling(v, Found(OwnerOf(c, c.v.uid))), Sibling(w, Found(OwnerOf(c, c.w.uid)))]
  }

  lemma TrueList(t: State, c: Cast, v: Machine, w: Machine)
    requires Fresh(c) && t.objects == map[c.v.uid := v, c.w.uid := w] && t.controlPlanes == {c.v.uid}
    requires t.born == map[c.v.uid := Birth(c.v, c.a), c.w.uid := Birth(c.w, c.b)]
    requires v.uid == c.v.uid && w.uid == c.w.uid && v.namespace == w.namespace
    ensures Lists(t, w.namespace, BothListed(c, v, w))
  {
    var l := BothListed(c, v, w);
    assert l[0].machine == t.objects[c.v.uid] && l[1].machine == t.objects[c.w.uid];
  }

  /** A reconcile of w up to the list. */
  lemma AboutToList(s: State, c: Cast, v: Machine, w: Machine) returns (actions: seq<Action>)
    requires Fresh(c) && Scene(s, c, v, w)
    requires !w.paused && !w.deleting && w.finalizer && !w.status.ready && w.status.failureReason.None?
    ensures Stage(ExecuteFrom(s, actions), c, v, w, c.w.uid, Listing(w, OwnerOf(c, c.w.uid)))
  {
    var u, o := c.w.uid, OwnerOf(c, c.w.uid);
    WorkerLegs(w, o);
    actions := Entered(s, c, v, w, u);
    actions := Next(s, actions, c, v, w, u, Owning(w), OwnerIs(Found(o)), Checking(w, o));
    actions := Next(s, actions, c, v, w, u, Checking(w, o), ClusterIs(Found(CLUSTER)), Listing(w, o));
  }

  /** The answer with the list. */
  lemma Listed(s: State, start: seq<Action>, c: Cast, v: Machine, w: Machine, run': Run) returns (actions: seq<Action>)
    requires Fresh(c) && Stage(ExecuteFrom(s, start), c, v, w, c.w.uid, Listing(w, OwnerOf(c, c.w.uid)))
    requires v.uid == c.v.uid && w.uid == c.w.uid && v.namespace == w.namespace
    requires Leg(Listing(w, OwnerOf(c, c.w.uid)), SiblingsAre(Found(BothListed(c, v, w))), run')
    ensures Stage(ExecuteFrom(s, actions), c, v, w, c.w.uid, run')
    ensures ExecuteFrom(s, actions).value.log ==
            ExecuteFrom(s, start).value.log + [Exchange(c.w.uid, ListSiblings, SiblingsAre(Found(BothListed(c, v, w))))]
  {
    TrueList(ExecuteFrom(s, start).value, c, v, w);
    actions := Next(s, start, c, v, w, c.w.uid, Listing(w, OwnerOf(c, c.w.uid)), SiblingsAre(Found(BothListed(c, v, w))), run');
  }

  /** The list and the patch behind it mark w. */
  lemma PairMarks(log: seq<Event>, i: nat, c: Cast, v: Machine, w: Machine, m: Machine)
    requires Fresh(c) && i + 1 < |log| && v.uid == c.v.uid && v.status.failureReason.Some?
    requires log[i] == Exchange(c.w.uid, ListSiblings, SiblingsAre(Found(BothListed(c, v, w))))
    requires log[i + 1] == Exchange(c.w.uid, Save(m), Accepted) && m.status.failureReason.Some?
    ensures Marks(log, i, c)
  {
    assert FailedControlPlane(BothListed(c, v, w)[0]);
  }

  lemma SceneSpreads(t: State, i: nat, c: Cast, v: Machine, w: Machine)
    requires Fresh(c) && Scene(t, c, v, w) && w.status.failureReason.Some? && Marks(t.log, i, c)
    ensures Spreads(t, i, c)
  {
    PlainIsInnocent(t.log, c.w.uid);
  }

  lemma Spread(s: State, c: Cast, v: Machine, w: Machine) returns (actions: seq<Action>, i: nat)
    requires Fresh(c) && Scene(s, c, v, w) && v.status.failureReason.Some?
    requires v.uid == c.v.uid && w.uid == c.w.uid && v.namespace == w.namespace
    requires !w.paused && !w.deleting && w.finalizer && !w.status.ready && w.status.failureReason.None?
    ensures ExecuteFrom(s, actions).Some? && Spreads(ExecuteFrom(s, actions).value, i, c)
  {
    var run' := ListLeg(w, OwnerOf(c, c.w.uid), BothListed(c, v, w));
    var start := AboutToList(s, c, v, w);
    var listed := Listed(s, start, c, v, w, run');
    actions := Close(s, listed, c, v, w, c.w.uid, run');
    i := |ExecuteFrom(s, start).value.log|;
    var log := ExecuteFrom(s, actions).value.log;
    assert log[i] == ExecuteFrom(s, listed).value.log[i];
    PairMarks(log, i, c, v, w, run'.m);
    SceneSpreads(ExecuteFrom(s, actions).value, i, c, v, Patched(w, run'.m));
  }

  // ---- from nothing ----

  /** As applied, but not paused, and v with a spec that can be ordered. */
  function Ready(m: Machine, spec: bool): Machine {
    var n := m.(paused := false);
    if spec then n.(spec := n.spec.(os := "os", plan := "plan", sshKeys := None), generation := n.generation + 1) else n
  }

  lemma BothApplied(c: Cast) returns (actions: seq<Action>)
    requires Fresh(c)
    ensures Execute(actions).Some? && Scene(Execute(actions).value, c, c.v, c.w)
  {
    assert ExecuteFrom(EMPTY, []) == Some(EMPTY);
    actions := Take(EMPTY, [], Apply(c.v, true, c.a));
    actions := Take(EMPTY, actions, Apply(c.w, false, c.b));
  }

  lemma BothResumed(c: Cast) returns (actions: seq<Action>)
    requires Fresh(c)
    ensures Execute(actions).Some? && Scene(Execute(actions).value, c, Ready(c.v, false), Ready(c.w, false))
  {
    actions := BothApplied(c);
    actions := Take(EMPTY, actions, Pause(c.v.uid, false));
    actions := Take(EMPTY, actions, Pause(c.w.uid, false));
  }

  /** Users may resume both machines, and complete the spec of v. */
  lemma BothEdited(c: Cast) returns (actions: seq<Action>)
    requires Fresh(c)
    ensures Execute(actions).Some? && Scene(Execute(actions).value, c, Ready(c.v, true), Ready(c.w, false))
  {
    actions := BothResumed(c);
    actions := Take(EMPTY, actions, Edit(c.v.uid, "os", "plan", None));
  }

  lemma BothReconciled(c: Cast) returns (actions: seq<Action>)
    requires Fresh(c)
    ensures Execute(actions).Some?
    ensures Scene(Execute(actions).value, c, Ready(c.v, true).(finalizer := true), Ready(c.w, false).(finalizer := true))
  {
    var v, w := Ready(c.v, true), Ready(c.w, false);
    actions := BothEdited(c);
    var first := AddFinalizer(Execute(actions).value, c, v, w, c.v.uid);
    ServerLeak.Compose(EMPTY, actions, first);
    actions := actions + first;
    var second := AddFinalizer(Execute(actions).value, c, v.(finalizer := true), w, c.w.uid);
    ServerLeak.Compose(EMPTY, actions, second);
    actions := actions + second;
  }

  /** A run in which the failure of v spreads to w, in one namespace. */
  lemma SpreadingRun(c: Cast) returns (actions: seq<Action>, i: nat)
    requires Fresh(c) && c.v.namespace == c.w.namespace
    ensures Execute(actions).Some? && Spreads(Execute(actions).value, i, c)
  {
    var v, w := Ready(c.v, true).(finalizer := true), Ready(c.w, false).(finalizer := true);
    actions := BothReconciled(c);
    var first, failed := FailControlPlane(Execute(actions).value, c, v, w);
    ServerLeak.Compose(EMPTY, actions, first);
    actions := actions + first;
    var second;
    second, i := Spread(Execute(actions).value, c, failed, w);
    ServerLeak.Compose(EMPTY, actions, second);
    actions := actions + second;
  }

  /**
   * Exactly when the failure of a control-plane machine can make a worker fail that never had an error of its own: when
   * they are in one namespace. The clusters that they belong to do not matter.
   */
  lemma SpreadIsByNamespace(c: Cast)
    requires Fresh(c)
    ensures (exists actions, i :: Execute(actions).Some? && Spreads(Execute(actions).value, i, c)) <==>
            c.v.namespace == c.w.namespace
  {
    if c.v.namespace == c.w.namespace {
      var actions, i := SpreadingRun(c);
      assert Spreads(Execute(actions).value, i, c);
    } else {
      forall actions, i: nat | Execute(actions).Some? ensures !Spreads(Execute(actions).value, i, c) {
        if Spreads(Execute(actions).value, i, c) {
          SpreadsInNamespace(actions, i, c);
        }
      }
    }
  }
}
