/** What the conditions of a machine say, over every run. */
module MachineConditions {
  import opened Prelude
  import opened Conditions
  import opened Api
  import opened MachineFlow
  import opened MachineSteps
  import opened Fleet
  import opened FleetInvariant

  /** An answer leaves the conditions alone, or reports: True with a running server, False on the way and in deletion. */
  ghost predicate Tells(run: Run, reply: Reply, m: Machine, m': Machine) {
    && (UniqueKinds(m.status.conditions) ==> UniqueKinds(m'.status.conditions))
    && (JustRan(run, reply) ==> Reported(m') == Some(ConditionTrue))
    && (!JustRan(run, reply) && m'.status.conditions != m.status.conditions ==>
          Reported(m') == Some(ConditionFalse) && (Working(run) || run.Removing?))
  }

  lemma ReportTells(m: Machine, status: Truth, reason: Reason, message: string, now: int)
    ensures Reported(Report(m, status, reason, message, now)) == Some(status)
    ensures UniqueKinds(m.status.conditions) ==> UniqueKinds(Report(m, status, reason, message, now).status.conditions)
  {
    var c := Condition(InstanceReady, status, reason, message, m.generation, now);
    PutReports(m.status.conditions, c, RewriteAlways);
    if UniqueKinds(m.status.conditions) {
      PutIsMapUpdate(m.status.conditions, c, RewriteAlways, InstanceReady);
    }
  }

  lemma ConcludeTells(m: Machine, result: Provision, now: int)
    ensures var m' := Conclude(m, result, now).m;
            (UniqueKinds(m.status.conditions) ==> UniqueKinds(m'.status.conditions)) &&
            (result.Running? ==> Reported(m') == Some(ConditionTrue)) &&
            (result.Died? ==> m' == m) &&
            (result.Waiting? || result.Broken? ==> Reported(m') == Some(ConditionFalse))
  {
    match result
    case Running(server) =>
      ReportTells(MarkReady(m, server), ConditionTrue, InstanceIsReady, "Instance is ready", now);
    case Waiting => ReportTells(m, ConditionFalse, InstanceNotReady, "Server is being provisioned", now);
    case Broken(e) =>
      ReportTells(MarkFailed(m, e), ConditionFalse, InstanceProvisionFailed, e, now);
      ReportTells(m, ConditionFalse, InstanceProvisionFailed, e, now);
    case Died =>
  }

  ghost predicate Told(run: Run, reply: Reply, now: int)
    requires HasMemory(run) && Fits(Pending(run), reply)
  {
    var run' := Resume(run, reply, now);
    HasMemory(run') && Tells(run, reply, run.m, run'.m)
  }

  lemma ListTells(run: Run, reply: Reply, now: int)
    requires run.Listing? && Fits(Pending(run), reply)
    ensures Told(run, reply, now)
  {
    ReportTells(MarkFailed(run.m, "Control plane provisioning failed, cannot provision worker nodes"),
                ConditionFalse, InstanceProvisionFailed, "Control plane failed", now);
  }

  lemma PlaceTells(run: Run, reply: Reply, now: int)
    requires run.Placing? && Fits(Pending(run), reply)
    ensures Told(run, reply, now)
  {
    ConcludeTells(run.m, Waiting, now);
    if !SpecComplete(run.m, reply.placement) {
      ReportTells(run.m, ConditionFalse, InstanceProvisionFailed, SpecMessage(run.m, reply.placement), now);
    }
  }

  lemma PollTells(run: Run, reply: Reply, now: int)
    requires run.Polling? && Fits(Pending(run), reply)
    ensures Told(run, reply, now)
  {
    match reply.read
    case ServerFailed(_) => ConcludeTells(run.m.(status := run.m.status.(serverID := "")), Waiting, now);
    case ServerBlank => ConcludeTells(run.m, Died, now);
    case ServerFound(s) => ConcludeTells(run.m, if IsUp(s.status) then Running(s) else Waiting, now);
  }

  lemma DataTells(run: Run, reply: Reply, now: int)
    requires run.Bootstrapping? && Fits(Pending(run), reply)
    ensures Told(run, reply, now)
  {
    ConcludeTells(run.m, Waiting, now);
    match ServerError(run, reply)
    case Some(e) => ConcludeTells(run.m, Broken(e), now);
    case None =>
  }

  lemma InjectTells(run: Run, reply: Reply, now: int)
    requires run.Injecting? && Fits(Pending(run), reply)
    ensures Told(run, reply, now)
  {
    ConcludeTells(run.m, Died, now);
  }

  lemma UploadTells(run: Run, reply: Reply, now: int)
    requires run.Uploading? || run.SavingData? || run.Keying?
    requires Fits(Pending(run), reply)
    ensures Told(run, reply, now)
  {
    match ServerError(run, reply)
    case Some(e) => ConcludeTells(run.m, Broken(e), now);
    case None =>
  }

  lemma CreateTells(run: Run, reply: Reply, now: int)
    requires run.Ordering? || run.Creating?
    requires Fits(Pending(run), reply)
    ensures Told(run, reply, now)
  {
    match ServerError(run, reply)
    case Some(e) => ConcludeTells(run.m, Broken(e), now);
    case None =>
  }

  lemma SavedTells(run: Run, reply: Reply, now: int)
    requires run.SavingServer? && Fits(Pending(run), reply)
    ensures Told(run, reply, now)
  {
    if run.m.status.serverID == "" {
      assert Resume(run, reply, now) == Conclude(run.m, Waiting, now);
      ConcludeTells(run.m, Waiting, now);
    }
  }

  lemma AttachTells(run: Run, reply: Reply, now: int)
    requires run.Attaching? && Fits(Pending(run), reply)
    ensures Told(run, reply, now)
  {
    assert Resume(run, reply, now) == Conclude(run.m, Waiting, now);
    ConcludeTells(run.m, Waiting, now);
  }

  lemma AttachReadTells(run: Run, reply: Reply, now: int)
    requires run.AttachReading? && Fits(Pending(run), reply)
    ensures Told(run, reply, now)
  {
    if reply.cluster.Missing? {
      ConcludeTells(run.m, Died, now);
    } else {
      ConcludeTells(run.m, Waiting, now);
    }
  }

  lemma EndTells(run: Run, reply: Reply, now: int)
    requires run.Removing? && Fits(Pending(run), reply)
    ensures Told(run, reply, now)
  {
    if reply.Refused? {
      ReportTells(run.m, ConditionFalse, InstanceDeletionFailed, reply.error, now);
    }
  }

  lemma ReleaseTells(run: Run, reply: Reply, now: int)
    requires run.RemovingData? && Fits(Pending(run), reply)
    ensures Told(run, reply, now)
  {}

  lemma OwnerTells(run: Run, reply: Reply, now: int)
    requires (run.Owning? || run.Checking?) && Fits(Pending(run), reply)
    ensures Told(run, reply, now)
  {}

  lemma EveryAnswerTells(run: Run, reply: Reply, now: int)
    requires !run.Finished? && !run.Saving? && HasMemory(run) && Fits(Pending(run), reply)
    ensures Told(run, reply, now)
  {
    match run
    case Owning(_) | Checking(_, _) => OwnerTells(run, reply, now);
    case Listing(_, _) => ListTells(run, reply, now);
    case Placing(_, _) => PlaceTells(run, reply, now);
    case Polling(_, _) => PollTells(run, reply, now);
    case Bootstrapping(_, _) => DataTells(run, reply, now);
    case Injecting(_, _) => InjectTells(run, reply, now);
    case Uploading(_, _) | SavingData(_) | Keying(_, _) => UploadTells(run, reply, now);
    case Ordering(_, _) | Creating(_, _) => CreateTells(run, reply, now);
    case Removing(_) => EndTells(run, reply, now);
    case RemovingData(_) => ReleaseTells(run, reply, now);
    case AttachReading(_) => AttachReadTells(run, reply, now);
    case SavingServer(_) => SavedTells(run, reply, now);
    case Attaching(_, _) => AttachTells(run, reply, now);
  }

  // ---- over runs ----

  /** One condition per type; InstanceReady is True only for a ready machine, and False for it only in deletion. */
  ghost predicate Faithful(m: Machine) {
    && UniqueKinds(m.status.conditions)
    && (Reported(m) == Some(ConditionTrue) ==> m.status.ready)
    && (m.status.ready && !m.deleting ==> Reported(m) == Some(ConditionTrue))
  }

  ghost predicate AllFaithful(s: State) {
    && (forall u :: u in s.objects ==> Faithful(s.objects[u]))
    && (s.active.Some? && HasMemory(s.active.value.run) ==> Faithful(s.active.value.run.m))
  }

  lemma MemoryFaithful(run: Run, reply: Reply, run': Run)
    requires !run.Finished? && Shape(run) && Fits(Pending(run), reply) && Change(run, reply, run') && HasMemory(run')
    requires if HasMemory(run) then Faithful(run.m) && Tells(run, reply, run.m, run'.m) else Faithful(reply.machine.value)
    ensures Faithful(run'.m)
  {}

  lemma AnswerFaithful(s: State, a: Action) returns (run': Run)
    requires Sound(s) && AllFaithful(s) && Legal(s, a) && a.Answer?
    ensures Answered(s, a.reply, a.side, run') && Step(s, a) == Advance(s, a.reply, a.side, run')
    ensures HasMemory(run') ==> Faithful(run'.m)
  {
    var run := s.active.value.run;
    run' := Resume(run, a.reply, a.now);
    EveryChange(run, a.reply, a.now);
    if HasMemory(run') {
      if HasMemory(run) {
        EveryAnswerTells(run, a.reply, a.now);
      }
      MemoryFaithful(run, a.reply, run');
    }
  }

  lemma FaithfulAdvance(s: State, reply: Reply, side: Option<string>, run': Run)
    requires Sound(s) && AllFaithful(s) && s.active.Some? && Fits(Pending(s.active.value.run), reply)
    requires HasMemory(run') ==> Faithful(run'.m)
    ensures AllFaithful(Advance(s, reply, side, run'))
  {
    ObjectsAdvance(s, reply, side, run');
  }

  lemma FaithfulStep(s: State, a: Action)
    requires Sound(s) && AllFaithful(s) && Legal(s, a)
    ensures AllFaithful(Step(s, a))
  {
    if a.Answer? {
      var run' := AnswerFaithful(s, a);
      FaithfulAdvance(s, a.reply, a.side, run');
    }
  }

  lemma {:induction false} AlwaysFaithful(actions: seq<Action>)
    requires Execute(actions).Some?
    ensures AllFaithful(Execute(actions).value)
  {
    if actions != [] {
      var n := |actions| - 1;
      AlwaysSound(actions[..n]);
      AlwaysFaithful(actions[..n]);
      FaithfulStep(Execute(actions[..n]).value, actions[n]);
    }
  }

  /**
   * In every run, a persisted machine has one condition per type; if InstanceReady is True the machine is Ready, and a
   * Ready machine that is not being deleted has InstanceReady True.
   */
  lemma InstanceReadyMeansReady(actions: seq<Action>, u: Uid)
    requires Execute(actions).Some? && u in Execute(actions).value.objects
    ensures var m := Execute(actions).value.objects[u];
            && UniqueKinds(m.status.conditions)
            && (Reported(m) == Some(ConditionTrue) ==> m.status.ready)
            && (m.status.ready && !m.deleting ==> Reported(m) == Some(ConditionTrue))
  {
    AlwaysFaithful(actions);
  }
}
