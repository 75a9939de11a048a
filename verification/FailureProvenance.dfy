/** Where failures come from: every failed machine traces back to a permanent error in its namespace. */
module FailureProvenance {
  import opened Prelude
  import opened Text
  import opened Api
  import opened MachineFlow
  import opened MachineSteps
  import opened Fleet
  import opened FleetInvariant

  // ---- what the history shows ----

  /** The answer to a call makes reconcileServer return an error. */
  predicate Reports(call: Call, reply: Reply, error: string)
    requires Fits(call, reply)
  {
    match call
    case GetBootstrap(_) =>
      BootstrapData(reply.secret).Some? && BootstrapData(reply.secret).value.Err? &&
      error == "failed to get bootstrap data: " + BootstrapData(reply.secret).value.error
    case GetKeys(ref) => KeysIn(ref, reply.secret).Err? && error == "failed to get SSH keys: " + KeysIn(ref, reply.secret).error
    case CreateUserData(_, _) => reply.Refused? && error == "create user-data: " + reply.error
    case CreateServer(_) => reply.Refused? && error == "failed to create server: " + reply.error
    case _ => false
  }

  /** The error names one of the two permanent codes. */
  predicate NamesCode(error: string) {
    Contains(error, "SERVERS_OUT_OF_STOCK") || Contains(error, "No stock availability")
  }

  lemma PermanentMeansCode(error: string)
    ensures IsPermanent(error) <==> NamesCode(error)
  {
    assert IsPermanent(error) <==> Contains(error, PERMANENT_CODES[0]) || Contains(error, PERMANENT_CODES[1]);
  }

  ghost predicate PermanentError(e: Event, u: Uid) {
    e.Exchange? && e.uid == u && Fits(e.call, e.reply) &&
    exists error :: Reports(e.call, e.reply, error) && NamesCode(error)
  }

  ghost predicate HadError(log: seq<Event>, u: Uid) {
    exists i :: 0 <= i < |log| && PermanentError(log[i], u)
  }

  /** A reconcile of u listed the namespace and found machine v there, failed and owned by a control plane. */
  predicate Saw(e: Event, u: Uid, v: Uid, namespace: string) {
    e.Exchange? && e.uid == u && e.call.ListSiblings? && e.reply.SiblingsAre? && e.reply.siblings.Found? &&
    exists k | 0 <= k < |e.reply.siblings.value| ::
      var b := e.reply.siblings.value[k];
      b.machine.uid == v && b.machine.namespace == namespace && FailedControlPlane(b)
  }

  /** u saw a failed control-plane machine of its namespace, which itself had a permanent error before that. */
  ghost predicate Inherited(log: seq<Event>, controlPlanes: set<Uid>, u: Uid, namespace: string) {
    exists i, v :: 0 <= i < |log| && Saw(log[i], u, v, namespace) && v in controlPlanes && HadError(log[..i], v)
  }

  ghost predicate Cause(log: seq<Event>, controlPlanes: set<Uid>, u: Uid, namespace: string) {
    HadError(log, u) || (u !in controlPlanes && Inherited(log, controlPlanes, u, namespace))
  }

  lemma CauseGrows(log: seq<Event>, more: seq<Event>, controlPlanes: set<Uid>, new_: set<Uid>, u: Uid, namespace: string)
    requires Cause(log, controlPlanes, u, namespace) && u !in new_
    ensures Cause(log + more, controlPlanes + new_, u, namespace)
  {
    if HadError(log, u) {
      var i :| 0 <= i < |log| && PermanentError(log[i], u);
      assert PermanentError((log + more)[i], u);
    } else {
      var i, v :| 0 <= i < |log| && Saw(log[i], u, v, namespace) && v in controlPlanes && HadError(log[..i], v);
      assert (log + more)[..i] == log[..i];
      assert Saw((log + more)[i], u, v, namespace);
    }
  }

  // ---- the invariant ----

  ghost predicate Excused(s: State, u: Uid, m: Machine) {
    m.status.failureReason.Some? ==>
      Cause(s.log, s.controlPlanes, u, m.namespace) && (u in s.controlPlanes ==> m.status.serverID == "")
  }

  ghost predicate Explained(s: State) {
    && (forall u :: u in s.objects ==> Excused(s, u, s.objects[u]))
    && (s.active.Some? ==>
          var a := s.active.value;
          (HasMemory(a.run) ==> Excused(s, a.uid, a.run.m)) &&
          (a.run.Checking? || a.run.Listing? ==> a.uid !in s.controlPlanes))
  }

  lemma ErrorIsReported(run: Run, reply: Reply)
    requires !run.Finished? && Fits(Pending(run), reply) && ServerError(run, reply).Some?
    ensures Reports(Pending(run), reply, ServerError(run, reply).value) && Unserved(run)
    ensures run.Creating? ==> !reply.Minted?
  {}

  /** A machine that an answer marks as failed has its cause in the history, this answer included. */
  lemma MarkedWithCause(s: State, reply: Reply, side: Option<string>, m': Machine)
    requires Sound(s) && Explained(s) && s.active.Some? && HasMemory(s.active.value.run)
    requires var a := s.active.value;
             Fits(Pending(a.run), reply) && Truthful(s, a.uid, a.run, reply) && MarkedFailed(a.run, reply, m')
    ensures var a := s.active.value; var log := s.log + [Exchange(a.uid, Pending(a.run), reply)];
            Cause(log, s.controlPlanes, a.uid, a.run.m.namespace) &&
            (a.uid in s.controlPlanes ==> Unserved(a.run) && !(a.run.Creating? && reply.Minted?))
  {
    var a := s.active.value;
    var e := Exchange(a.uid, Pending(a.run), reply);
    var log := s.log + [e];
    assert log[|s.log|] == e && log[..|s.log|] == s.log;
    if ServerError(a.run, reply).Some? && IsPermanent(ServerError(a.run, reply).value) {
      ErrorIsReported(a.run, reply);
      PermanentMeansCode(ServerError(a.run, reply).value);
      assert PermanentError(log[|s.log|], a.uid);
    } else {
      var siblings := reply.siblings.value;
      var k :| 0 <= k < |siblings| && FailedControlPlane(siblings[k]);
      var v := siblings[k].machine.uid;
      assert Excused(s, v, s.objects[v]);
      assert Saw(log[|s.log|], a.uid, v, a.run.m.namespace);
      assert HadError(log[..|s.log|], v);
    }
  }

  /** The memory behind an answer is excused by the longer history. */
  lemma MemoryExcused(s: State, reply: Reply, side: Option<string>, run': Run)
    requires Sound(s) && Explained(s) && Answered(s, reply, side, run') && HasMemory(run')
    ensures Excused(Advance(s, reply, side, run'), s.active.value.uid, run'.m)
  {
    var a := s.active.value;
    var e := [Exchange(a.uid, Pending(a.run), reply)];
    if HasMemory(a.run) && MarkedFailed(a.run, reply, run'.m) {
      MarkedWithCause(s, reply, side, run'.m);
    } else if run'.m.status.failureReason.Some? {
      if a.run.Reading? {
        assert Excused(s, a.uid, s.objects[a.uid]);
      }
      CauseGrows(s.log, e, s.controlPlanes, {}, a.uid, run'.m.namespace);
      assert s.controlPlanes + {} == s.controlPlanes;
    }
  }

  lemma ObjectExcused(s: State, reply: Reply, side: Option<string>, run': Run, u: Uid)
    requires s.active.Some? && !s.active.value.run.Finished? && Fits(Pending(s.active.value.run), reply)
    requires Sound(s) && Explained(s) && u in s.objects
    ensures var t := Advance(s, reply, side, run'); u in t.objects && Excused(t, u, t.objects[u])
  {
    var a, t := s.active.value, Advance(s, reply, side, run');
    ObjectsAdvance(s, reply, side, run');
    assert Excused(s, u, t.objects[u]);
    if t.objects[u].status.failureReason.Some? {
      CauseGrows(s.log, t.log[|s.log|..], s.controlPlanes, {}, u, t.objects[u].namespace);
      assert s.log + t.log[|s.log|..] == t.log;
      assert s.controlPlanes + {} == s.controlPlanes;
    }
  }

  lemma ExplainedAdvance(s: State, reply: Reply, side: Option<string>, run': Run)
    requires Sound(s) && Explained(s) && Answered(s, reply, side, run')
    ensures Explained(Advance(s, reply, side, run'))
  {
    var t := Advance(s, reply, side, run');
    ObjectsAdvance(s, reply, side, run');
    forall u | u in t.objects ensures Excused(t, u, t.objects[u]) {
      ObjectExcused(s, reply, side, run', u);
    }
    if HasMemory(run') {
      MemoryExcused(s, reply, side, run');
    }
  }

  lemma ExplainedMeanwhile(s: State, a: Action)
    requires Sound(s) && Explained(s) && Legal(s, a) && !a.Answer?
    ensures Explained(Step(s, a))
  {
    var t := Step(s, a);
    var more, new_ := t.log[|s.log|..], t.controlPlanes - s.controlPlanes;
    assert t.log == s.log + more && t.controlPlanes == s.controlPlanes + new_;
    forall u | u in t.objects && u in s.objects ensures Excused(t, u, t.objects[u]) {
      assert Excused(s, u, s.objects[u]);
      if t.objects[u].status.failureReason.Some? {
        CauseGrows(s.log, more, s.controlPlanes, new_, u, t.objects[u].namespace);
      }
    }
    if t.active.Some? && HasMemory(t.active.value.run) && t.active.value.run.m.status.failureReason.Some? {
      CauseGrows(s.log, more, s.controlPlanes, new_, t.active.value.uid, t.active.value.run.m.namespace);
    }
  }

  lemma ExplainedStep(s: State, a: Action)
    requires Sound(s) && Explained(s) && Legal(s, a)
    ensures Explained(Step(s, a))
  {
    if a.Answer? {
      var run' := AnswerAdvances(s, a);
      ExplainedAdvance(s, a.reply, a.side, run');
    } else {
      ExplainedMeanwhile(s, a);
    }
  }

  lemma {:induction false} AlwaysExplained(actions: seq<Action>)
    requires Execute(actions).Some?
    ensures Explained(Execute(actions).value)
  {
    if actions != [] {
      var n := |actions| - 1;
      AlwaysSound(actions[..n]);
      AlwaysExplained(actions[..n]);
      ExplainedStep(Execute(actions[..n]).value, actions[n]);
    }
  }

  /** In every run, a failed control-plane machine had a permanent error of its own, and has no server on record. */
  lemma ControlPlaneFailsByItself(actions: seq<Action>, u: Uid)
    requires Execute(actions).Some?
    requires var s := Execute(actions).value; u in s.objects && u in s.controlPlanes && s.objects[u].status.failureReason.Some?
    ensures var s := Execute(actions).value; HadError(s.log, u) && s.objects[u].status.serverID == ""
  {
    AlwaysExplained(actions);
    var s := Execute(actions).value;
    assert Excused(s, u, s.objects[u]);
  }

  /**
   * In every run, a failed worker had a permanent error of its own, or saw a failed control-plane machine of its
   * namespace, which had had a permanent error of its own by then.
   */
  lemma WorkerFailsWithCause(actions: seq<Action>, u: Uid)
    requires Execute(actions).Some?
    requires var s := Execute(actions).value; u in s.objects && u !in s.controlPlanes && s.objects[u].status.failureReason.Some?
    ensures var s := Execute(actions).value;
            HadError(s.log, u) || Inherited(s.log, s.controlPlanes, u, s.objects[u].namespace)
  {
    AlwaysExplained(actions);
    var s := Execute(actions).value;
    assert Excused(s, u, s.objects[u]);
  }

  // ---- no worker joins a failed control plane ----

  /** No control-plane machine of the namespace has failed. */
  ghost predicate Healthy(s: State, namespace: string) {
    forall v :: v in s.objects && v in s.controlPlanes && s.objects[v].namespace == namespace ==>
      s.objects[v].status.failureReason.None?
  }

  predicate PastCheck(run: Run) {
    Working(run) && !run.Owning? && !run.Checking? && !run.Listing?
  }

  ghost predicate Vetted(s: State) {
    s.active.Some? && PastCheck(s.active.value.run) && s.active.value.uid !in s.controlPlanes && !s.active.value.blind ==>
      Healthy(s, s.active.value.run.m.namespace)
  }

  /** A worker that listed its namespace with every owner readable, and goes on, saw no failed control plane. */
  lemma VettedByList(s: State, reply: Reply, side: Option<string>, run': Run)
    requires Sound(s) && Answered(s, reply, side, run') && s.active.value.run.Listing? && PastCheck(run')
    requires reply.siblings.Found? && AllReadable(reply.siblings.value)
    ensures Healthy(s, s.active.value.run.m.namespace)
  {
    var a, siblings := s.active.value, reply.siblings.value;
    assert !SawFailure(siblings);
    forall v | v in s.objects && v in s.controlPlanes && s.objects[v].namespace == a.run.m.namespace
      ensures s.objects[v].status.failureReason.None?
    {
      var i :| 0 <= i < |siblings| && siblings[i].machine == s.objects[v];
      assert !FailedControlPlane(siblings[i]);
    }
  }

  /** A patch of another object, or of the vetted worker itself, does not make a control-plane machine fail. */
  lemma HealthyKept(s: State, reply: Reply, side: Option<string>, run': Run, namespace: string)
    requires s.active.Some? && !s.active.value.run.Finished? && Fits(Pending(s.active.value.run), reply)
    requires ObjectsSound(s) && Healthy(s, namespace) && s.active.value.uid !in s.controlPlanes
    ensures Healthy(Advance(s, reply, side, run'), namespace)
  {
    ObjectsAdvance(s, reply, side, run');
  }

  lemma VettedAdvance(s: State, reply: Reply, side: Option<string>, run': Run)
    requires Sound(s) && Vetted(s) && Answered(s, reply, side, run')
    requires s.active.value.uid !in s.controlPlanes && PastCheck(run') && !Track(s.active.value, reply, run').blind
    ensures Healthy(s, run'.m.namespace)
  {
    if s.active.value.run.Listing? {
      VettedByList(s, reply, side, run');
    }
  }

  lemma VettedStep(s: State, a: Action)
    requires Sound(s) && Vetted(s) && Legal(s, a)
    ensures Vetted(Step(s, a))
  {
    if a.Answer? {
      var run' := AnswerAdvances(s, a);
      var b := s.active.value;
      if b.uid !in s.controlPlanes && PastCheck(run') && !Track(b, a.reply, run').blind {
        VettedAdvance(s, a.reply, a.side, run');
        HealthyKept(s, a.reply, a.side, run', run'.m.namespace);
      }
    }
  }

  lemma {:induction false} AlwaysVetted(actions: seq<Action>)
    requires Execute(actions).Some?
    ensures Vetted(Execute(actions).value)
  {
    if actions != [] {
      var n := |actions| - 1;
      AlwaysSound(actions[..n]);
      AlwaysVetted(actions[..n]);
      VettedStep(Execute(actions[..n]).value, actions[n]);
    }
  }

  /**
   * In every run: while a failed control-plane machine exists, no reconcile of a worker in its namespace is about to
   * create a server, unless that reconcile could not read the cluster, the namespace, or an owner in it.
   */
  lemma NoServerForFailedControlPlane(actions: seq<Action>, v: Uid)
    requires Execute(actions).Some?
    requires var s := Execute(actions).value;
             s.active.Some? && s.active.value.run.Creating? && s.active.value.uid !in s.controlPlanes &&
             v in s.objects && v in s.controlPlanes && s.objects[v].status.failureReason.Some? &&
             s.objects[v].namespace == s.active.value.run.m.namespace
    ensures Execute(actions).value.active.value.blind
  {
    AlwaysVetted(actions);
  }

  // ---- what makes an error permanent ----

  /** Text in front of an error hides no code, and adds none if it lacks the code's first character. */
  lemma CodeBehindPrefix(prefix: string, error: string, code: string)
    requires code != "" && code[0] !in prefix
    ensures Contains(prefix + error, code) <==> Contains(error, code)
  {
    var s := prefix + error;
    if Contains(error, code) {
      var i :| 0 <= i <= |error| && At(error, code, i);
      assert s[|prefix| + i..|prefix| + i + |code|] == error[i..i + |code|];
      assert At(s, code, |prefix| + i);
    }
    if Contains(s, code) {
      var i :| 0 <= i <= |s| && At(s, code, i);
      assert s[i] == code[0];
      assert s[i..i + |code|] == error[i - |prefix|..i - |prefix| + |code|];
      assert At(error, code, i - |prefix|);
    }
  }

  /** A failed order is permanent exactly when the cloud's own error carries one of the permanent codes. */
  lemma OrderErrorIsPermanent(error: string)
    ensures IsPermanent("failed to create server: " + error) <==> NamesCode(error)
  {
    var prefix := "failed to create server: ";
    PermanentMeansCode(prefix + error);
    CodeBehindPrefix(prefix, error, "SERVERS_OUT_OF_STOCK");
    CodeBehindPrefix(prefix, error, "No stock availability");
  }
}
