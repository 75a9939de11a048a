/** Progress: when everything cooperates, three reconciles make a machine Ready. */
module Progress {
  import opened Prelude
  import opened Text
  import opened Api
  import opened MachineFlow
  import opened MachineSteps
  import opened Fleet
  import opened FleetInvariant

  /** How far a machine is: no finalizer, no live server, a live server not yet accepted, Ready. */
  function RankOf(m: Machine, servers: map<string, Uid>): nat {
    if m.status.ready then 0
    else if m.finalizer && m.status.serverID in servers then 1
    else if m.finalizer then 2
    else 3
  }

  /** Neither paused, nor being deleted, nor failed. */
  predicate Eligible(m: Machine) {
    !m.paused && !m.deleting && m.status.failureReason.None?
  }

  /**
   * A cooperative answer: reads succeed and find what they look for (among it no failed control plane), creates and
   * patches succeed, a live server is reported as running, and only a missing one is reported as failed.
   */
  predicate Kind(run: Run, servers: map<string, Uid>, reply: Reply)
    requires !run.Finished? && Fits(Pending(run), reply)
  {
    match run
    case Reading => reply.machine.Found?
    case Owning(_) => reply.owner.Found? && reply.owner.value.dataSecret.Some?
    case Checking(_, _) | Injecting(_, _) | AttachReading(_) => reply.cluster.Found?
    case Listing(_, _) => reply.siblings.Found? && !SawFailure(reply.siblings.value)
    case Placing(m, _) => SpecComplete(m, reply.placement)
    case Polling(m, _) =>
      if m.status.serverID in servers then reply.read.ServerFound? && IsUp(reply.read.server.status)
      else reply.read.ServerFailed?
    case Bootstrapping(_, _) => BootstrapData(reply.secret).Some? && BootstrapData(reply.secret).value.Ok?
    case Keying(_, ref) => KeysIn(ref, reply.secret).Ok?
    case Ordering(m, _) => SpecComplete(m, reply.placement)
    case Uploading(_, _) | Creating(_, _) => reply.Minted?
    case SavingData(_) | SavingServer(_) | Saving(_, _) => reply.Accepted?
    case Attaching(_, _) | Removing(_) | RemovingData(_) => true
  }

  /** A cooperative reconcile that began at rank r, and will end at a lower one. */
  predicate OnTrack(run: Run, servers: map<string, Uid>, p: Machine, r: nat) {
    Eligible(p) &&
    match run
    case Reading => 1 <= r == RankOf(p, servers)
    case Owning(m) => BeforePoll(m, servers, r)
    case Checking(_, _) | Listing(_, _) | Placing(_, _) => BeforePoll(run.m, servers, r) && run.owner.dataSecret.Some?
    case Polling(m, o) => BeforePoll(m, servers, r) && o.dataSecret.Some? && m.status.serverID != ""
    case Creating(m, spec) => r == 2 && Underway(m) && ValidSpec(spec)
    case Bootstrapping(_, _) | Injecting(_, _) | Uploading(_, _) | SavingData(_) | Keying(_, _) | Ordering(_, _) =>
      r == 2 && Underway(run.m)
    case SavingServer(_) | AttachReading(_) | Attaching(_, _) =>
      r == 2 && Underway(run.m) && run.m.status.serverID in servers && run.m.status.serverID != ""
    case Saving(m, _) => m.finalizer && m.status.failureReason.None? && RankOf(m, servers) < r && (m.status.ready ==> r == 1)
    case Removing(_) | RemovingData(_) | Finished(_) => false
  }

  predicate Underway(m: Machine) {
    m.finalizer && !m.status.ready && m.status.failureReason.None?
  }

  predicate BeforePoll(m: Machine, servers: map<string, Uid>, r: nat) {
    Underway(m) && r == RankOf(m, servers)
  }

  /** The servers behind a cooperative answer. */
  function Cloud(run: Run, servers: map<string, Uid>, uid: Uid, reply: Reply): map<string, Uid> {
    if run.Creating? && reply.Minted? then servers[reply.id := uid] else servers
  }

  predicate StaysOnTrack(a: Active, servers: map<string, Uid>, p: Machine, r: nat, reply: Reply, run': Run)
    requires !a.run.Finished? && Fits(Pending(a.run), reply)
  {
    var cloud, q := Cloud(a.run, servers, a.uid, reply), Stored(a, p, reply);
    if run'.Finished? then Eligible(q) && RankOf(q, cloud) < r && (q.status.ready ==> r == 1) else OnTrack(run', cloud, q, r)
  }

  lemma CheckOnTrack(a: Active, servers: map<string, Uid>, p: Machine, r: nat, reply: Reply, now: int)
    requires !a.run.Finished? && PhaseOf(a.run) == Check && Fits(Pending(a.run), reply) && Kind(a.run, servers, reply)
    requires OnTrack(a.run, servers, p, r) && "" !in servers && (a.run.Reading? ==> reply.machine == Found(p))
    ensures StaysOnTrack(a, servers, p, r, reply, Resume(a.run, reply, now))
  {}

  lemma PrepareOnTrack(a: Active, servers: map<string, Uid>, p: Machine, r: nat, reply: Reply, now: int)
    requires !a.run.Finished? && PhaseOf(a.run) == Prepare && Fits(Pending(a.run), reply) && Kind(a.run, servers, reply)
    requires OnTrack(a.run, servers, p, r) && "" !in servers
    ensures StaysOnTrack(a, servers, p, r, reply, Resume(a.run, reply, now))
  {}

  lemma CreateOnTrack(a: Active, servers: map<string, Uid>, p: Machine, r: nat, reply: Reply, now: int)
    requires !a.run.Finished? && PhaseOf(a.run) == Create && Fits(Pending(a.run), reply) && Kind(a.run, servers, reply)
    requires OnTrack(a.run, servers, p, r) && "" !in servers && (a.run.Creating? ==> reply.id != "")
    ensures StaysOnTrack(a, servers, p, r, reply, Resume(a.run, reply, now))
  {}

  lemma EndOnTrack(a: Active, servers: map<string, Uid>, p: Machine, r: nat, reply: Reply, now: int)
    requires !a.run.Finished? && PhaseOf(a.run) == End && Fits(Pending(a.run), reply) && Kind(a.run, servers, reply)
    requires OnTrack(a.run, servers, p, r)
    ensures StaysOnTrack(a, servers, p, r, reply, Resume(a.run, reply, now))
  {}

  lemma EveryAnswerStaysOnTrack(a: Active, servers: map<string, Uid>, p: Machine, r: nat, reply: Reply, now: int)
    requires !a.run.Finished? && Fits(Pending(a.run), reply) && Kind(a.run, servers, reply) && OnTrack(a.run, servers, p, r)
    requires "" !in servers && (a.run.Creating? ==> reply.id != "") && (a.run.Reading? ==> reply.machine == Found(p))
    ensures StaysOnTrack(a, servers, p, r, reply, Resume(a.run, reply, now))
  {
    match PhaseOf(a.run)
    case Check => CheckOnTrack(a, servers, p, r, reply, now);
    case Prepare => PrepareOnTrack(a, servers, p, r, reply, now);
    case Create => CreateOnTrack(a, servers, p, r, reply, now);
    case End => EndOnTrack(a, servers, p, r, reply, now);
  }

  // ---- in the fleet ----

  ghost predicate ServersNamed(s: State) {
    "" !in s.servers
  }

  lemma NamedStep(s: State, a: Action)
    requires ServersNamed(s) && Legal(s, a)
    ensures ServersNamed(Step(s, a))
  {}

  lemma {:induction false} AlwaysNamed(actions: seq<Action>)
    requires Execute(actions).Some?
    ensures ServersNamed(Execute(actions).value)
  {
    if actions != [] {
      var n := |actions| - 1;
      AlwaysNamed(actions[..n]);
      NamedStep(Execute(actions[..n]).value, actions[n]);
    }
  }

  /** GetServer may deny some servers, as if they were gone: `denied`, ids that were handed out before. */
  ghost predicate Steady(s: State, denied: set<string>) {
    Sound(s) && ServersNamed(s) && denied <= s.issued.Keys
  }

  /** The rank of a persisted machine, by the servers that are not denied. */
  ghost function Rank(s: State, u: Uid, denied: set<string>): nat
    requires u in s.objects
  {
    RankOf(s.objects[u], s.servers - denied)
  }

  /** The machine's own reconcile is running, on track from rank r. */
  ghost predicate Busy(s: State, u: Uid, r: nat, denied: set<string>) {
    && Steady(s, denied) && s.active.Some? && s.active.value.uid == u && u in s.objects
    && OnTrack(s.active.value.run, s.servers - denied, s.objects[u], r)
  }

  /** No reconcile is running, and the machine is at a rank below r; it became Ready only from rank 1. */
  ghost predicate Idle(s: State, u: Uid, r: nat, denied: set<string>) {
    && Steady(s, denied) && s.active.None? && u in s.objects
    && Eligible(s.objects[u]) && Rank(s, u, denied) < r && (s.objects[u].status.ready ==> r == 1)
  }

  ghost predicate KindAnswer(s: State, a: Action, denied: set<string>) {
    Legal(s, a) && a.Answer? && a.side.None? && Kind(s.active.value.run, s.servers - denied, a.reply)
  }

  lemma KindStep(s: State, a: Action, u: Uid, r: nat, denied: set<string>)
    requires Busy(s, u, r, denied) && KindAnswer(s, a, denied)
    ensures Busy(Step(s, a), u, r, denied) || Idle(Step(s, a), u, r, denied)
  {
    SoundStep(s, a);
    var b, run' := s.active.value, Resume(s.active.value.run, a.reply, a.now);
    EveryAnswerStaysOnTrack(b, s.servers - denied, s.objects[u], r, a.reply, a.now);
    ObjectsAdvance(s, a.reply, a.side, run');
    CloudFollows(s, a, run', denied);
  }

  /** Nothing but a new server changes in the cloud. */
  lemma CloudFollows(s: State, a: Action, run': Run, denied: set<string>)
    requires Steady(s, denied) && KindAnswer(s, a, denied) && !s.active.value.run.Removing?
    ensures var b := s.active.value;
            var t := Advance(s, a.reply, a.side, run');
            && ServersNamed(t) && denied <= t.issued.Keys
            && t.servers == Cloud(b.run, s.servers, b.uid, a.reply)
            && t.servers - denied == Cloud(b.run, s.servers - denied, b.uid, a.reply)
  {}

  /** A reconcile of u up to some point, in which every answer is cooperative. */
  ghost predicate CooperativeStart(s: State, u: Uid, actions: seq<Action>, denied: set<string>) {
    && actions != [] && actions[0] == Begin(u) && Legal(s, Begin(u)) && ExecuteFrom(s, actions).Some?
    && forall i :: 0 < i < |actions| ==>
         var before := ExecuteFrom(s, actions[..i]);
         before.Some? && KindAnswer(before.value, actions[i], denied)
  }

  ghost predicate CooperativeReconcile(s: State, u: Uid, actions: seq<Action>, denied: set<string>) {
    CooperativeStart(s, u, actions, denied) && ExecuteFrom(s, actions).value.active.None?
  }

  lemma BeginsOnTrack(s: State, u: Uid, denied: set<string>)
    requires Steady(s, denied) && u in s.objects && Eligible(s.objects[u]) && !s.objects[u].status.ready
    requires Legal(s, Begin(u))
    ensures ExecuteFrom(s, [Begin(u)]) == Some(Step(s, Begin(u)))
    ensures Busy(Step(s, Begin(u)), u, Rank(s, u, denied), denied)
  {
    assert ExecuteFrom(s, [Begin(u)][..0]) == Some(s);
    SoundStep(s, Begin(u));
  }

  lemma NextAnswer(s: State, u: Uid, actions: seq<Action>, i: nat, denied: set<string>)
    requires CooperativeStart(s, u, actions, denied) && 0 < i < |actions|
    ensures var before := ExecuteFrom(s, actions[..i]);
            && before.Some? && KindAnswer(before.value, actions[i], denied)
            && ExecuteFrom(s, actions[..i + 1]) == Some(Step(before.value, actions[i]))
  {
    assert actions[..i + 1][..i] == actions[..i];
  }

  /** A state on the way, or at the end, of a cooperative reconcile. */
  ghost predicate Tracked(t: Option<State>, u: Uid, r: nat, denied: set<string>) {
    t.Some? && (Busy(t.value, u, r, denied) || Idle(t.value, u, r, denied))
  }

  lemma TrackedStep(t: State, a: Action, u: Uid, r: nat, denied: set<string>)
    requires Tracked(Some(t), u, r, denied) && KindAnswer(t, a, denied)
    ensures Tracked(Some(Step(t, a)), u, r, denied)
  {
    KindStep(t, a, u, r, denied);
  }

  lemma NextOnTrack(s: State, u: Uid, actions: seq<Action>, i: nat, r: nat, denied: set<string>)
    requires CooperativeStart(s, u, actions, denied) && 0 < i < |actions|
    requires Tracked(ExecuteFrom(s, actions[..i]), u, r, denied)
    ensures Tracked(ExecuteFrom(s, actions[..i + 1]), u, r, denied)
  {
    NextAnswer(s, u, actions, i, denied);
    TrackedStep(ExecuteFrom(s, actions[..i]).value, actions[i], u, r, denied);
  }

  lemma {:induction false} PrefixOnTrack(s: State, u: Uid, actions: seq<Action>, i: nat, denied: set<string>)
    requires Steady(s, denied) && u in s.objects && Eligible(s.objects[u]) && !s.objects[u].status.ready
    requires CooperativeStart(s, u, actions, denied) && 0 < i <= |actions|
    ensures Tracked(ExecuteFrom(s, actions[..i]), u, Rank(s, u, denied), denied)
  {
    if i == 1 {
      assert actions[..1] == [Begin(u)];
      BeginsOnTrack(s, u, denied);
    } else {
      PrefixOnTrack(s, u, actions, i - 1, denied);
      NextOnTrack(s, u, actions, i - 1, Rank(s, u, denied), denied);
      assert actions[..i - 1 + 1] == actions[..i];
    }
  }

  /** Each cooperative reconcile brings a machine that is not Ready at least one rank closer. */
  lemma ReconcileLowersRank(s: State, u: Uid, actions: seq<Action>, denied: set<string>)
    requires Steady(s, denied) && u in s.objects && Eligible(s.objects[u]) && !s.objects[u].status.ready
    requires CooperativeReconcile(s, u, actions, denied)
    ensures Idle(ExecuteFrom(s, actions).value, u, Rank(s, u, denied), denied)
  {
    PrefixOnTrack(s, u, actions, |actions|, denied);
    assert actions[..|actions|] == actions;
  }

  // ---- with anything else in between ----

  /** Other things that happen, among them reconciles of other machines, and then a reconcile of this one. */
  datatype Round = Round(meanwhile: seq<Action>, reconcile: seq<Action>)

  /** What happened left the object and its server alone, and no reconcile is running. */
  ghost predicate Undisturbed(s: State, t: State, u: Uid) {
    && u in s.objects && u in t.objects && t.objects[u] == s.objects[u] && t.active.None?
    && (s.objects[u].status.serverID in s.servers <==> s.objects[u].status.serverID in t.servers)
  }

  lemma SteadyStep(s: State, a: Action, denied: set<string>)
    requires Steady(s, denied) && Legal(s, a)
    ensures Steady(Step(s, a), denied)
  {
    SoundStep(s, a);
  }

  lemma {:induction false} StaysSteady(s: State, actions: seq<Action>, denied: set<string>)
    requires Steady(s, denied) && ExecuteFrom(s, actions).Some?
    ensures Steady(ExecuteFrom(s, actions).value, denied)
  {
    if actions != [] {
      var n := |actions| - 1;
      StaysSteady(s, actions[..n], denied);
      SteadyStep(ExecuteFrom(s, actions[..n]).value, actions[n], denied);
    }
  }

  /** The state in which the reconcile of a round begins, if the round is allowed. */
  ghost predicate Allowed(s: State, u: Uid, round: Round, denied: set<string>) {
    var t := ExecuteFrom(s, round.meanwhile);
    t.Some? && Undisturbed(s, t.value, u) && CooperativeReconcile(t.value, u, round.reconcile, denied)
  }

  ghost function AfterRound(s: State, u: Uid, round: Round, denied: set<string>): State
    requires Allowed(s, u, round, denied)
  {
    ExecuteFrom(ExecuteFrom(s, round.meanwhile).value, round.reconcile).value
  }

  lemma RoundLowersRank(s: State, u: Uid, round: Round, denied: set<string>)
    requires Steady(s, denied) && u in s.objects && Eligible(s.objects[u]) && !s.objects[u].status.ready
    requires Allowed(s, u, round, denied)
    ensures Idle(AfterRound(s, u, round, denied), u, Rank(s, u, denied), denied)
  {
    var t := ExecuteFrom(s, round.meanwhile).value;
    StaysSteady(s, round.meanwhile, denied);
    assert Rank(t, u, denied) == Rank(s, u, denied);
    ReconcileLowersRank(t, u, round.reconcile, denied);
  }

  /** The state behind rounds, until the machine is Ready; None if one is not allowed. */
  ghost function Rounds(s: State, u: Uid, rs: seq<Round>, denied: set<string>): Option<State>
    decreases |rs|
  {
    if rs == [] || (u in s.objects && s.objects[u].status.ready) then Some(s)
    else if Allowed(s, u, rs[0], denied) then Rounds(AfterRound(s, u, rs[0], denied), u, rs[1..], denied)
    else None
  }

  lemma {:induction false} RoundsReachReady(s: State, u: Uid, rs: seq<Round>, denied: set<string>)
    requires Steady(s, denied) && u in s.objects && Eligible(s.objects[u])
    requires Rank(s, u, denied) <= |rs| && Rounds(s, u, rs, denied).Some?
    ensures var t := Rounds(s, u, rs, denied).value; u in t.objects && t.objects[u].status.ready
    decreases |rs|
  {
    if !s.objects[u].status.ready {
      RoundLowersRank(s, u, rs[0], denied);
      RoundsReachReady(AfterRound(s, u, rs[0], denied), u, rs[1..], denied);
    }
  }

  /**
   * From any reachable state, three cooperative reconciles of a machine that is neither paused, nor being deleted, nor
   * failed make it Ready (fewer if it has its finalizer, or a live server), whatever else happens before each of them
   * that leaves its object and its server alone, and even if GetServer denies servers that were made before.
   */
  lemma ThreeReconcilesReachReady(history: seq<Action>, u: Uid, rs: seq<Round>, denied: set<string>)
    requires Execute(history).Some?
    requires var s := Execute(history).value; u in s.objects && Eligible(s.objects[u]) && denied <= s.issued.Keys
    requires |rs| == 3 && Rounds(Execute(history).value, u, rs, denied).Some?
    ensures var t := Rounds(Execute(history).value, u, rs, denied).value;
            u in t.objects && t.objects[u].status.ready
  {
    AlwaysSound(history);
    AlwaysNamed(history);
    RoundsReachReady(Execute(history).value, u, rs, denied);
  }
}
