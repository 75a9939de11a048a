/** Why the bound of ServerCount cannot be a constant: a GetServer that fails for live servers makes them pile up. */
module ServerLeak {
  import opened Prelude
  import opened Api
  import opened MachineFlow
  import opened Fleet
  import opened FleetInvariant
  import opened FailureProvenance
  import opened Progress
  import opened Cooperation
  import opened History
  import opened ServerCount
  import ServerOwnership

  lemma {:induction false} Compose(s: State, a: seq<Action>, b: seq<Action>)
    requires ExecuteFrom(s, a).Some?
    ensures ExecuteFrom(s, a + b) == ExecuteFrom(ExecuteFrom(s, a).value, b)
  {
    if b == [] {
      assert a + b == a;
    } else {
      var n := |b| - 1;
      Compose(s, a, b[..n]);
      assert (a + b)[..|a + b| - 1] == a + b[..n] && (a + b)[|a + b| - 1] == b[n];
    }
  }

  /** One machine, no crash, no lost server, and no call that fails after taking effect. */
  predicate Calm(actions: seq<Action>) {
    forall i | 0 <= i < |actions| ::
      actions[i] == Apply(MACHINE, true, "cluster") || actions[i].Begin? || (actions[i].Answer? && actions[i].side.None?)
  }

  lemma ReconcilesAreCalm(s: State, u: Uid, actions: seq<Action>, denied: set<string>)
    requires CooperativeStart(s, u, actions, denied)
    ensures Calm(actions)
  {
    forall i | 0 < i < |actions| ensures actions[i].Answer? && actions[i].side.None? {
      NextAnswer(s, u, actions, i, denied);
    }
  }

  /** No server goes away. */
  ghost predicate KeepsServers(s: State, t: State) {
    forall id :: id in s.servers ==> id in t.servers && t.servers[id] == s.servers[id]
  }

  lemma StepKeepsServers(s: State, u: Uid, r: nat, a: Action, denied: set<string>)
    requires Busy(s, u, r, denied) && KindAnswer(s, a, denied)
    requires ServerOwnership.Recorded(s)
    ensures KeepsServers(s, Step(s, a))
  {
    assert OnTrack(s.active.value.run, s.servers - denied, s.objects[u], r);
    CloudFollows(s, a, Resume(s.active.value.run, a.reply, a.now), denied);
    ServerOwnership.LiveIsIssued(s);
  }

  /** Still Sound, with no server gone and every record true. */
  ghost predicate Preserved(s: State, t: Option<State>) {
    t.Some? && Sound(t.value) && KeepsServers(s, t.value) && ServerOwnership.Recorded(t.value)
  }

  lemma BeginPreserves(s: State, u: Uid, denied: set<string>)
    requires Steady(s, denied) && u in s.objects && Legal(s, Begin(u)) && ServerOwnership.Recorded(s)
    requires Eligible(s.objects[u]) && !s.objects[u].status.ready
    ensures Preserved(s, ExecuteFrom(s, [Begin(u)]))
  {
    BeginsOnTrack(s, u, denied);
    ServerOwnership.RecordedStep(s, Begin(u));
  }

  lemma StepPreserves(s: State, u: Uid, r: nat, t: State, a: Action, denied: set<string>)
    requires Preserved(s, Some(t)) && KindAnswer(t, a, denied)
    requires Busy(t, u, r, denied) || Idle(t, u, r, denied)
    ensures Preserved(s, Some(Step(t, a)))
  {
    StepKeepsServers(t, u, r, a, denied);
    SoundStep(t, a);
    ServerOwnership.RecordedStep(t, a);
  }

  /** A cooperative reconcile loses no server, and keeps every record true. */
  lemma {:induction false} PrefixKeepsServers(s: State, u: Uid, actions: seq<Action>, i: nat, denied: set<string>)
    requires Steady(s, denied) && u in s.objects && Eligible(s.objects[u]) && !s.objects[u].status.ready
    requires CooperativeStart(s, u, actions, denied) && 0 < i <= |actions| && ServerOwnership.Recorded(s)
    ensures Preserved(s, ExecuteFrom(s, actions[..i]))
  {
    if i == 1 {
      assert actions[..1] == [Begin(u)];
      BeginPreserves(s, u, denied);
    } else {
      NextAnswer(s, u, actions, i - 1, denied);
      PrefixKeepsServers(s, u, actions, i - 1, denied);
      PrefixOnTrack(s, u, actions, i - 1, denied);
      var t := ExecuteFrom(s, actions[..i - 1]).value;
      StepPreserves(s, u, Rank(s, u, denied), t, actions[i - 1], denied);
      assert actions[..i - 1 + 1] == actions[..i];
    }
  }

  // ---- the accidents on the way ----

  /** Every server that was made is alive, none of them by accident, and at most so many GetServer calls have failed. */
  ghost predicate Tallied(s: State, u: Uid, polls: nat) {
    && s.issued.Keys <= s.servers.Keys
    && Count(s.log, OrderRefused, u) == 0 && Count(s.log, ServerUnsaved, u) == 0 && Count(s.log, PollFailed, u) <= polls
  }

  /** What GetServer may have failed for in a reconcile so far: nothing, if it is still to be asked or denies no server. */
  function Spent(s: State, denied: set<string>): nat {
    One(denied != {} && !(s.active.Some? && Unpolled(s.active.value.run)))
  }

  predicate Unpolled(run: Run) {
    run.Reading? || run.Owning? || run.Checking? || run.Listing? || run.Placing? || run.Polling?
  }

  /** A poll that fails is one for a server that is denied, if all others are alive. */
  lemma PollsTally(s: State, u: Uid, r: nat, a: Action, run': Run, denied: set<string>)
    requires Busy(s, u, r, denied) && KindAnswer(s, a, denied) && ServerOwnership.Recorded(s)
    requires s.issued.Keys <= s.servers.Keys && Answered(s, a.reply, a.side, run')
    ensures var t := Advance(s, a.reply, a.side, run'); var run := s.active.value.run;
            Spent(s, denied) + One(run.Polling? && a.reply.read.ServerFailed?) <= Spent(t, denied)
  {
    var run := s.active.value.run;
    if run.Polling? && a.reply.read.ServerFailed? {
      assert ServerOwnership.MadeFor(s, run.m.status.serverID, u);
    }
  }

  lemma ClosesSaved(s: State, u: Uid, r: nat, a: Action, run': Run, denied: set<string>)
    requires Busy(s, u, r, denied) && KindAnswer(s, a, denied) && Answered(s, a.reply, a.side, run')
    ensures run'.Finished? ==> !Track(s.active.value, a.reply, run').unsavedServer
    ensures s.active.value.run.Creating? ==> a.reply.Minted?
  {}

  lemma StaysAlive(s: State, u: Uid, r: nat, a: Action, run': Run, denied: set<string>)
    requires Busy(s, u, r, denied) && KindAnswer(s, a, denied) && s.issued.Keys <= s.servers.Keys
    ensures var t := Advance(s, a.reply, a.side, run'); t.issued.Keys <= t.servers.Keys
  {
    CloudFollows(s, a, run', denied);
  }

  lemma StepTallies(s: State, u: Uid, r: nat, a: Action, denied: set<string>, n: nat)
    requires Busy(s, u, r, denied) && KindAnswer(s, a, denied) && ServerOwnership.Recorded(s)
    requires Tallied(s, u, n + Spent(s, denied))
    ensures Tallied(Step(s, a), u, n + Spent(Step(s, a), denied))
  {
    var run' := AnswerAdvances(s, a);
    CountsAdvance(s, a.reply, a.side, run', u);
    CountAdvance(s, a.reply, a.side, run', OrderRefused, u);
    CountAdvance(s, a.reply, a.side, run', ServerUnsaved, u);
    PollsTally(s, u, r, a, run', denied);
    ClosesSaved(s, u, r, a, run', denied);
    StaysAlive(s, u, r, a, run', denied);
  }

  ghost predicate Counted(t: Option<State>, u: Uid, denied: set<string>, n: nat) {
    t.Some? && Tallied(t.value, u, n + Spent(t.value, denied))
  }

  lemma CountedStep(s: State, u: Uid, r: nat, t: State, a: Action, denied: set<string>, n: nat)
    requires Preserved(s, Some(t)) && KindAnswer(t, a, denied) && Counted(Some(t), u, denied, n)
    requires Tracked(Some(t), u, r, denied)
    ensures Counted(Some(Step(t, a)), u, denied, n)
  {
    StepTallies(t, u, r, a, denied, n);
  }

  lemma {:induction false} PrefixTallies(s: State, u: Uid, actions: seq<Action>, i: nat, denied: set<string>, n: nat)
    requires Steady(s, denied) && u in s.objects && Eligible(s.objects[u]) && !s.objects[u].status.ready
    requires CooperativeStart(s, u, actions, denied) && 0 < i <= |actions| && ServerOwnership.Recorded(s)
    requires Tallied(s, u, n)
    ensures Counted(ExecuteFrom(s, actions[..i]), u, denied, n)
  {
    if i == 1 {
      assert actions[..1] == [Begin(u)];
      BeginPreserves(s, u, denied);
    } else {
      NextAnswer(s, u, actions, i - 1, denied);
      PrefixTallies(s, u, actions, i - 1, denied, n);
      PrefixKeepsServers(s, u, actions, i - 1, denied);
      PrefixOnTrack(s, u, actions, i - 1, denied);
      var t := ExecuteFrom(s, actions[..i - 1]).value;
      CountedStep(s, u, Rank(s, u, denied), t, actions[i - 1], denied, n);
      assert actions[..i - 1 + 1] == actions[..i];
    }
  }

  /** The machine waits, not Ready, with a live server on record that is not among those denied so far, once each. */
  ghost predicate Waits(s: State, u: Uid, denied: set<string>) {
    && Idle(s, u, 2, denied) && Viable(s, u) && ServerOwnership.Recorded(s) && Rank(s, u, denied) == 1
    && (forall id :: id in denied ==> id in s.servers && s.servers[id] == u)
    && Tallied(s, u, |denied|)
  }

  /** If GetServer denies the server on record too, one reconcile makes another, and the first one lives on. */
  lemma DeniedServerIsReplaced(s: State, u: Uid, denied: set<string>) returns (actions: seq<Action>, more: set<string>)
    requires Waits(s, u, denied)
    ensures ExecuteFrom(s, actions).Some? && Waits(ExecuteFrom(s, actions).value, u, more)
    ensures |more| == |denied| + 1 && Calm(actions)
  {
    var id := s.objects[u].status.serverID;
    more := denied + {id};
    ServerOwnership.LiveIsIssued(s);
    assert s.servers[id] == u by {
      assert ServerOwnership.MadeFor(s, id, u) && ServerOwnership.MadeFor(s, id, s.servers[id]);
    }
    actions := ServeOnce(s, u, more);
    ReconcilesAreCalm(s, u, actions, more);
    PrefixKeepsServers(s, u, actions, |actions|, more);
    PrefixTallies(s, u, actions, |actions|, more, |denied|);
    assert actions[..|actions|] == actions;
  }

  const MACHINE := Machine("uid", "namespace", "name", 0, false, false, false, MachineSpec("os", "plan", None, None),
                           MachineStatus(false, "", "", "", [], None, None, []))

  lemma Applied() returns (s: State)
    ensures Legal(EMPTY, Apply(MACHINE, true, "cluster")) && s == Step(EMPTY, Apply(MACHINE, true, "cluster"))
    ensures Steady(s, {}) && s.active.None? && Viable(s, "uid") && Eligible(s.objects["uid"]) && Rank(s, "uid", {}) == 3
    ensures ServerOwnership.Recorded(s) && Tallied(s, "uid", 0)
  {
    s := Step(EMPTY, Apply(MACHINE, true, "cluster"));
  }

  /** A reconcile of a machine at rank 2 or 3 that is served completely. */
  lemma Served(s: State, u: Uid) returns (actions: seq<Action>)
    requires Steady(s, {}) && s.active.None? && Viable(s, u) && Eligible(s.objects[u]) && ServerOwnership.Recorded(s)
    requires Rank(s, u, {}) >= 2 && Tallied(s, u, 0)
    ensures ExecuteFrom(s, actions).Some?
    ensures var t := ExecuteFrom(s, actions).value;
            Viable(t, u) && ServerOwnership.Recorded(t) && Idle(t, u, Rank(s, u, {}), {}) && Tallied(t, u, 0)
    ensures Calm(actions)
  {
    actions := ServeOnce(s, u, {});
    ReconcilesAreCalm(s, u, actions, {});
    PrefixKeepsServers(s, u, actions, |actions|, {});
    PrefixTallies(s, u, actions, |actions|, {}, 0);
    assert actions[..|actions|] == actions;
  }

  /** A machine that was reconciled once, from nothing. */
  lemma Enrolled() returns (actions: seq<Action>)
    ensures Execute(actions).Some? && Calm(actions)
    ensures var t := Execute(actions).value;
            Viable(t, "uid") && ServerOwnership.Recorded(t) && Idle(t, "uid", 3, {}) && Tallied(t, "uid", 0)
  {
    var s := Applied();
    var start := [Apply(MACHINE, true, "cluster")];
    assert start[..0] == [] && ExecuteFrom(EMPTY, start[..0]) == Some(EMPTY);
    var first := Served(s, "uid");
    Compose(EMPTY, start, first);
    actions := start + first;
  }

  /** A first server, from nothing. */
  lemma FirstServer() returns (actions: seq<Action>)
    ensures Execute(actions).Some? && Waits(Execute(actions).value, "uid", {}) && Calm(actions)
  {
    actions := Enrolled();
    var t := Execute(actions).value;
    if Rank(t, "uid", {}) == 2 {
      var second := Served(t, "uid");
      Compose(EMPTY, actions, second);
      actions := actions + second;
    }
  }

  lemma {:induction false} PileUp(n: nat) returns (actions: seq<Action>, denied: set<string>)
    ensures Execute(actions).Some? && Waits(Execute(actions).value, "uid", denied) && |denied| == n && Calm(actions)
  {
    if n == 0 {
      actions := FirstServer();
      denied := {};
    } else {
      actions, denied := PileUp(n - 1);
      var back, more := DeniedServerIsReplaced(Execute(actions).value, "uid", denied);
      Compose(EMPTY, actions, back);
      actions, denied := actions + back, more;
    }
  }

  /** So many servers were made: the one on record, and those that were denied. */
  lemma WaitsWithServers(s: State, u: Uid, denied: set<string>)
    requires Waits(s, u, denied)
    ensures |Issued(s.issued, u)| >= |denied| + 1
  {
    var id := s.objects[u].status.serverID;
    assert ServerOwnership.MadeFor(s, id, u);
    forall d | d in denied ensures d in Issued(s.issued, u) {
      assert ServerOwnership.MadeFor(s, d, s.servers[d]);
    }
    SubsetIsSmaller(denied + {id}, Issued(s.issued, u));
  }

  /**
   * The bounds of ServersAreBounded and IssuedServersAreBounded are attained: however large n is, some run without a
   * crash, a lost server or a lost answer makes n + 1 servers for one and the same object, all of them alive at its
   * end, at the price of n failed GetServer calls and of no other accident.
   */
  lemma ServersPileUp(n: nat) returns (actions: seq<Action>, u: Uid)
    ensures Execute(actions).Some? && Calm(actions)
    ensures var s := Execute(actions).value;
            && Count(s.log, PollFailed, u) == n && Count(s.log, ServerUnsaved, u) == Count(s.log, OrderRefused, u) == 0
            && Count(s.log, ServerMade, u) == n + 1 == |Issued(s.issued, u)|
            && forall id :: id in Issued(s.issued, u) ==> id in s.servers && s.servers[id] == u
  {
    var denied;
    u := "uid";
    actions, denied := PileUp(n);
    var s := Execute(actions).value;
    WaitsWithServers(s, u, denied);
    ServersAreBounded(actions, u);
    AlwaysCovered(actions, u);
    forall id | id in Issued(s.issued, u) ensures id in s.servers && s.servers[id] == u {
      assert ServerOwnership.MadeFor(s, id, s.servers[id]);
    }
  }

  /** A run that makes a machine Ready, with one address. */
  lemma ReadyMachine() returns (actions: seq<Action>)
    ensures Execute(actions).Some? && Calm(actions)
    ensures var s := Execute(actions).value;
            "uid" in s.objects && s.objects["uid"].status.ready && Addressed(s.objects["uid"])
  {
    actions := FirstServer();
    var s := Execute(actions).value;
    var last := ServeOnce(s, "uid", {});
    ReconcilesAreCalm(s, "uid", last, {});
    Compose(EMPTY, actions, last);
    actions := actions + last;
  }
}
