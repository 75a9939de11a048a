/** How the in-memory object of a running reconcile relates to the persisted one, in every run of the fleet. */
module FleetInvariant {
  import opened Prelude
  import opened Api
  import opened MachineFlow
  import opened MachineSteps
  import opened Fleet

  predicate HasMemory(run: Run) {
    !run.Reading? && !run.Finished?
  }

  /** The memory of a reconcile against the object in the API server. */
  ghost predicate Matches(a: Active, p: Machine)
    requires HasMemory(a.run)
  {
    var m := a.run.m;
    && m.uid == p.uid && m.namespace == p.namespace && m.name == p.name
    && (m.deleting ==> p.deleting)
    && (!a.run.Saving? ==> p.finalizer == m.finalizer)
    && (p.status.userDataID != "" ==> m.status.userDataID == p.status.userDataID)
    && (a.unsavedServer || m.status.serverID == "" || m.status.serverID == p.status.serverID)
    && (Working(a.run) ==> !p.status.ready && p.status.failureReason.None?)
    && (!Working(a.run) && !a.run.Saving? ==> m.status == p.status)
    && (p.status.ready ==> m.status.ready && m.status.serverID == p.status.serverID)
    && (p.status.failureReason.Some? ==> m.status.failureReason.Some?)
  }

  ghost predicate ObjectsSound(s: State) {
    && s.objects.Keys <= s.known && s.controlPlanes <= s.known && s.born.Keys == s.known
    && (forall u :: u in s.objects ==> s.objects[u].uid == u)
  }

  /** A server that was made and not saved is known to the memory alone, and the machine is not ready. */
  ghost predicate FlagsSound(a: Active) {
    && !a.run.Finished? && Shape(a.run)
    && (a.run.Reading? ==> !a.unsavedServer && !a.unsavedData)
    && (HasMemory(a.run) ==> a.run.m.uid == a.uid)
    && (a.unsavedServer ==>
          (a.run.SavingServer? || a.run.AttachReading? || a.run.Attaching? || a.run.Saving?) &&
          a.run.m.status.serverID != "" && !a.run.m.status.ready)
  }

  ghost predicate Sound(s: State) {
    && ObjectsSound(s)
    && (s.active.Some? ==>
          var a := s.active.value;
          && a.uid in s.known && FlagsSound(a)
          && (Working(a.run) ==> a.uid in s.objects)
          && (HasMemory(a.run) && a.uid in s.objects ==> Matches(a, s.objects[a.uid])))
  }

  /** An answered call, as its effect on the state and the change of the conversation. */
  ghost predicate Answered(s: State, reply: Reply, side: Option<string>, run': Run) {
    && s.active.Some? && !s.active.value.run.Finished?
    && var run := s.active.value.run;
    && Fits(Pending(run), reply) && Truthful(s, s.active.value.uid, run, reply)
    && SideEffect(s, Pending(run), reply, side) && Change(run, reply, run')
  }

  lemma AnswerAdvances(s: State, a: Action) returns (run': Run)
    requires Sound(s) && Legal(s, a) && a.Answer?
    ensures Answered(s, a.reply, a.side, run') && Step(s, a) == Advance(s, a.reply, a.side, run')
  {
    run' := Resume(s.active.value.run, a.reply, a.now);
    EveryChange(s.active.value.run, a.reply, a.now);
  }

  lemma MemoryFromRead(a: Active, p: Machine, reply: Reply, run': Run)
    requires a.run.Reading? && !a.unsavedServer && Fits(GetMachine, reply) && reply.machine == Found(p)
    requires Change(a.run, reply, run') && HasMemory(run')
    ensures Matches(Track(a, reply, run'), p)
  {}

  lemma MemorySaved(a: Active, p: Machine, reply: Reply, run': Run)
    requires HasMemory(a.run) && Fits(Pending(a.run), reply) && Pending(a.run).Save? && reply.Accepted?
    requires Shape(a.run) && Matches(a, p) && Change(a.run, reply, run') && HasMemory(run')
    ensures Matches(Track(a, reply, run'), Patched(p, a.run.m))
  {}

  lemma MemoryKept(a: Active, p: Machine, reply: Reply, run': Run)
    requires HasMemory(a.run) && Fits(Pending(a.run), reply) && !(Pending(a.run).Save? && reply.Accepted?)
    requires Shape(a.run) && Matches(a, p) && Change(a.run, reply, run') && HasMemory(run')
    ensures Matches(Track(a, reply, run'), p)
  {}

  /** The object behind a call, as the API server holds it. */
  function Stored(a: Active, p: Machine, reply: Reply): Machine
    requires !a.run.Finished? && Fits(Pending(a.run), reply)
  {
    if Pending(a.run).Save? && reply.Accepted? then Patched(p, a.run.m) else p
  }

  lemma MemoryMatches(a: Active, p: Machine, reply: Reply, run': Run)
    requires !a.run.Finished? && Shape(a.run) && Fits(Pending(a.run), reply) && Change(a.run, reply, run') && HasMemory(run')
    requires if a.run.Reading? then !a.unsavedServer && reply.machine == Found(p) else Matches(a, p)
    ensures Matches(Track(a, reply, run'), Stored(a, p, reply))
  {
    if a.run.Reading? {
      MemoryFromRead(a, p, reply, run');
    } else if Pending(a.run).Save? && reply.Accepted? {
      MemorySaved(a, p, reply, run');
    } else {
      MemoryKept(a, p, reply, run');
    }
  }

  lemma FlagsAdvance(s: State, a: Active, reply: Reply, run': Run)
    requires FlagsSound(a) && Fits(Pending(a.run), reply) && Change(a.run, reply, run') && !run'.Finished?
    requires Truthful(s, a.uid, a.run, reply) && ObjectsSound(s)
    ensures FlagsSound(Track(a, reply, run'))
  {}

  lemma ObjectsAdvance(s: State, reply: Reply, side: Option<string>, run': Run)
    requires s.active.Some? && !s.active.value.run.Finished? && Fits(Pending(s.active.value.run), reply) && ObjectsSound(s)
    ensures var a, t := s.active.value, Advance(s, reply, side, run');
            ObjectsSound(t) && (forall u :: u in t.objects <==> u in s.objects) &&
            forall u :: u in s.objects ==> t.objects[u] == if u == a.uid then Stored(a, s.objects[u], reply) else s.objects[u]
  {}

  lemma SoundAdvance(s: State, reply: Reply, side: Option<string>, run': Run)
    requires Sound(s) && Answered(s, reply, side, run')
    ensures Sound(Advance(s, reply, side, run'))
  {
    var a := s.active.value;
    ObjectsAdvance(s, reply, side, run');
    if !run'.Finished? {
      FlagsAdvance(s, a, reply, run');
      if HasMemory(run') && a.uid in s.objects {
        MemoryMatches(a, s.objects[a.uid], reply, run');
      }
    }
  }

  lemma SoundMeanwhile(s: State, a: Action)
    requires Sound(s) && Legal(s, a) && !a.Answer?
    ensures Sound(Step(s, a))
  {}

  lemma SoundStep(s: State, a: Action)
    requires Sound(s) && Legal(s, a)
    ensures Sound(Step(s, a))
  {
    if a.Answer? {
      var run' := AnswerAdvances(s, a);
      SoundAdvance(s, a.reply, a.side, run');
    } else {
      SoundMeanwhile(s, a);
    }
  }

  lemma {:induction false} AlwaysSound(actions: seq<Action>)
    requires Execute(actions).Some?
    ensures Sound(Execute(actions).value)
  {
    if actions != [] {
      var n := |actions| - 1;
      AlwaysSound(actions[..n]);
      SoundStep(Execute(actions[..n]).value, actions[n]);
    }
  }
}
