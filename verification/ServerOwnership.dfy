/** Which server belongs to which machine, and what a machine that vanishes leaves behind. */
module ServerOwnership {
  import opened Prelude
  import opened Api
  import opened MachineFlow
  import opened MachineSteps
  import opened Fleet
  import opened FleetInvariant

  // ---- in every run: a server id on record was made for that object ----

  ghost predicate MadeFor(s: State, id: string, uid: Uid) {
    id != "" ==> id in s.issued && s.issued[id] == uid
  }

  ghost predicate Recorded(s: State) {
    && (forall id :: id in s.servers ==> id != "" && MadeFor(s, id, s.servers[id]))
    && (forall u :: u in s.objects ==> MadeFor(s, s.objects[u].status.serverID, u))
    && (s.active.Some? && HasMemory(s.active.value.run) ==>
          MadeFor(s, s.active.value.run.m.status.serverID, s.active.value.uid))
  }

  /** Where the server ids of an answered call come from: a new one is fresh, and the memory takes it or keeps its own. */
  ghost predicate IdsMove(s: State, reply: Reply, side: Option<string>, run': Run)
    requires s.active.Some? && !s.active.value.run.Finished? && Fits(Pending(s.active.value.run), reply)
  {
    var a, made := s.active.value, Made(Pending(s.active.value.run), reply, side);
    && (made.Some? ==> FreshServer(s, made.value))
    && (HasMemory(run') ==>
          var id := run'.m.status.serverID;
          || id == "" || made == Some(id)
          || (if HasMemory(a.run) then id == a.run.m.status.serverID
              else a.uid in s.objects && id == s.objects[a.uid].status.serverID))
  }

  lemma EveryIdMoves(s: State, reply: Reply, side: Option<string>, run': Run)
    requires Sound(s) && Answered(s, reply, side, run')
    ensures IdsMove(s, reply, side, run')
  {}

  lemma MadeForGrows(s: State, reply: Reply, side: Option<string>, run': Run, id: string, uid: Uid)
    requires s.active.Some? && !s.active.value.run.Finished? && Fits(Pending(s.active.value.run), reply)
    requires IdsMove(s, reply, side, run') && MadeFor(s, id, uid)
    ensures MadeFor(Advance(s, reply, side, run'), id, uid)
  {}

  lemma ServersRecorded(s: State, reply: Reply, side: Option<string>, run': Run, id: string)
    requires s.active.Some? && !s.active.value.run.Finished? && Fits(Pending(s.active.value.run), reply)
    requires IdsMove(s, reply, side, run') && Recorded(s) && id in Advance(s, reply, side, run').servers
    ensures var t := Advance(s, reply, side, run'); id != "" && MadeFor(t, id, t.servers[id])
  {}

  lemma MemoryRecorded(s: State, reply: Reply, side: Option<string>, run': Run)
    requires s.active.Some? && !s.active.value.run.Finished? && Fits(Pending(s.active.value.run), reply)
    requires IdsMove(s, reply, side, run') && Recorded(s) && HasMemory(run')
    ensures MadeFor(Advance(s, reply, side, run'), run'.m.status.serverID, s.active.value.uid)
  {}

  lemma RecordedAdvance(s: State, reply: Reply, side: Option<string>, run': Run)
    requires s.active.Some? && !s.active.value.run.Finished? && Fits(Pending(s.active.value.run), reply)
    requires ObjectsSound(s) && IdsMove(s, reply, side, run') && Recorded(s)
    ensures Recorded(Advance(s, reply, side, run'))
  {
    var t := Advance(s, reply, side, run');
    ObjectsAdvance(s, reply, side, run');
    forall id | id in t.servers ensures id != "" && MadeFor(t, id, t.servers[id]) {
      ServersRecorded(s, reply, side, run', id);
    }
    forall u | u in t.objects ensures MadeFor(t, t.objects[u].status.serverID, u) {
      MadeForGrows(s, reply, side, run', t.objects[u].status.serverID, u);
    }
    if HasMemory(run') {
      MemoryRecorded(s, reply, side, run');
    }
  }

  lemma RecordedStep(s: State, a: Action)
    requires Sound(s) && Legal(s, a) && Recorded(s)
    ensures Recorded(Step(s, a))
  {
    if a.Answer? {
      var run' := AnswerAdvances(s, a);
      EveryIdMoves(s, a.reply, a.side, run');
      RecordedAdvance(s, a.reply, a.side, run');
    }
  }

  lemma {:induction false} AlwaysRecorded(actions: seq<Action>)
    requires Execute(actions).Some?
    ensures Recorded(Execute(actions).value)
  {
    if actions != [] {
      var n := |actions| - 1;
      AlwaysSound(actions[..n]);
      AlwaysRecorded(actions[..n]);
      RecordedStep(Execute(actions[..n]).value, actions[n]);
    }
  }

  lemma LiveIsIssued(s: State)
    requires Recorded(s)
    ensures s.servers.Keys <= s.issued.Keys
  {
    forall id | id in s.servers ensures id in s.issued {
      assert MadeFor(s, id, s.servers[id]);
    }
  }

  /** In every run: two machines never have the same server on record. */
  lemma ServersAreNotShared(actions: seq<Action>, u: Uid, v: Uid)
    requires Execute(actions).Some?
    requires var s := Execute(actions).value; u in s.objects && v in s.objects
    ensures var o := Execute(actions).value.objects;
            o[u].status.serverID == o[v].status.serverID != "" ==> u == v
  {
    AlwaysRecorded(actions);
  }

  // ---- in every run: a server on record keeps the finalizer until it has been deleted ----

  ghost predicate Guarded(servers: map<string, Uid>, m: Machine) {
    m.status.serverID != "" && !m.finalizer ==> m.deleting && m.status.serverID !in servers
  }

  /** The memory is guarded too, and the finalizer is added only to an object without a server. */
  ghost predicate Watched(servers: map<string, Uid>, a: Active, p: Machine)
    requires HasMemory(a.run)
  {
    var m := a.run.m;
    && Guarded(servers, m)
    && (a.run.RemovingData? ==> m.status.serverID !in servers)
    && (m.finalizer && !p.finalizer ==> p.status.serverID == "")
  }

  /** A server that the memory alone knows, unsaved, is guarded by the finalizer of the object. */
  ghost predicate Alone(a: Active, p: Machine)
    requires HasMemory(a.run)
  {
    a.unsavedServer ==> p.finalizer && a.run.m.finalizer && a.run.m.status.serverID != p.status.serverID
  }

  ghost predicate Guards(s: State) {
    && (forall id :: id in s.servers ==> s.servers[id] in s.known)
    && (forall u :: u in s.objects ==> Guarded(s.servers, s.objects[u]))
    && (s.active.Some? && HasMemory(s.active.value.run) ==>
          var a := s.active.value;
          (a.unsavedServer ==> a.uid in s.objects) &&
          (a.uid in s.objects ==> Watched(s.servers, a, s.objects[a.uid]) && Alone(a, s.objects[a.uid])))
  }

  lemma WatchedAdvance(s: State, reply: Reply, side: Option<string>, run': Run)
    requires Sound(s) && Answered(s, reply, side, run') && Recorded(s) && Guards(s)
    requires HasMemory(run') && s.active.value.uid in s.objects
    ensures var a := s.active.value;
            Watched(ServersAfter(s, a.uid, Pending(a.run), reply, side), Track(a, reply, run'),
                    Stored(a, s.objects[a.uid], reply))
  {
    assert "" !in s.servers;
  }

  lemma AloneAdvance(s: State, reply: Reply, side: Option<string>, run': Run)
    requires Sound(s) && Answered(s, reply, side, run') && Recorded(s) && Guards(s)
    requires HasMemory(run') && s.active.value.uid in s.objects
    ensures var a := s.active.value; Alone(Track(a, reply, run'), Stored(a, s.objects[a.uid], reply))
  {
    assert MadeFor(s, s.objects[s.active.value.uid].status.serverID, s.active.value.uid);
  }

  lemma GuardedAdvance(s: State, reply: Reply, side: Option<string>, run': Run, u: Uid)
    requires s.active.Some? && !s.active.value.run.Finished? && Fits(Pending(s.active.value.run), reply)
    requires Sound(s) && IdsMove(s, reply, side, run') && Recorded(s) && Guards(s) && u in s.objects
    ensures var t := Advance(s, reply, side, run');
            u in t.objects && Guarded(t.servers, t.objects[u])
  {
    ObjectsAdvance(s, reply, side, run');
  }

  lemma GuardsAdvance(s: State, reply: Reply, side: Option<string>, run': Run)
    requires Sound(s) && Answered(s, reply, side, run') && Recorded(s) && Guards(s)
    ensures Guards(Advance(s, reply, side, run'))
  {
    var a, t := s.active.value, Advance(s, reply, side, run');
    ObjectsAdvance(s, reply, side, run');
    EveryIdMoves(s, reply, side, run');
    forall u | u in t.objects ensures Guarded(t.servers, t.objects[u]) {
      GuardedAdvance(s, reply, side, run', u);
    }
    if HasMemory(run') && a.uid in s.objects {
      WatchedAdvance(s, reply, side, run');
      AloneAdvance(s, reply, side, run');
    }
  }

  lemma GuardsStep(s: State, a: Action)
    requires Sound(s) && Recorded(s) && Guards(s) && Legal(s, a)
    ensures Guards(Step(s, a))
  {
    if a.Answer? {
      var run' := AnswerAdvances(s, a);
      GuardsAdvance(s, a.reply, a.side, run');
    }
  }

  lemma {:induction false} AlwaysGuards(actions: seq<Action>)
    requires Execute(actions).Some?
    ensures Guards(Execute(actions).value)
  {
    if actions != [] {
      var n := |actions| - 1;
      AlwaysSound(actions[..n]);
      AlwaysRecorded(actions[..n]);
      AlwaysGuards(actions[..n]);
      GuardsStep(Execute(actions[..n]).value, actions[n]);
    }
  }

  /** In every run, a server on record means that the finalizer is on record too, until the server has been deleted. */
  lemma RecordKeepsFinalizer(actions: seq<Action>, u: Uid)
    requires Execute(actions).Some?
    requires u in Execute(actions).value.objects
    ensures var s := Execute(actions).value; var p := s.objects[u];
            p.status.serverID != "" ==> p.finalizer || (p.deleting && p.status.serverID !in s.servers)
  {
    AlwaysGuards(actions);
  }

  // ---- without accidents: every live server is on record ----

  /**
   * No accident happens: GetServer fails only for servers that are gone, a refused CreateServer makes nothing, and a
   * reconcile does not end while the server that it made is unsaved.
   */
  ghost predicate Careful(s: State, a: Action)
    requires Legal(s, a)
  {
    match a
    case Answer(reply, _, side) =>
      var b := s.active.value;
      (b.run.Polling? && reply.read.ServerFailed? ==> b.run.m.status.serverID !in s.servers) &&
      (b.run.Creating? ==> side.None?) &&
      (b.run.Saving? && reply.Refused? ==> !b.unsavedServer)
    case Crash => !s.active.value.unsavedServer
    case _ => true
  }

  ghost predicate CarefulRun(actions: seq<Action>) {
    Execute(actions).Some? &&
    forall i :: 0 <= i < |actions| ==>
      var before := Execute(actions[..i]);
      before.Some? && Legal(before.value, actions[i]) && Careful(before.value, actions[i])
  }

  /** Every live server is on the record of its object, or about to be: made by the reconcile that is still running. */
  ghost predicate Owned(s: State, id: string) {
    id in s.servers ==>
      var u := s.servers[id];
      u in s.objects && s.objects[u].finalizer &&
      (s.objects[u].status.serverID == id ||
       (Unsaved(s, u) && s.active.value.run.m.status.serverID == id))
  }

  ghost predicate Unsaved(s: State, u: Uid) {
    s.active.Some? && s.active.value.uid == u && s.active.value.unsavedServer && HasMemory(s.active.value.run)
  }

  /** What the memory forgot is gone. */
  ghost predicate Remembered(servers: map<string, Uid>, a: Active, p: Machine)
    requires HasMemory(a.run)
  {
    a.run.m.status.serverID != p.status.serverID ==> p.status.serverID !in servers
  }

  ghost predicate Kept(s: State) {
    && (forall id :: Owned(s, id))
    && (s.active.Some? && HasMemory(s.active.value.run) && s.active.value.uid in s.objects ==>
          Remembered(s.servers, s.active.value, s.objects[s.active.value.uid]))
  }

  /** The active reconcile still owns a server: its object has it on record, or the memory has, unsaved. */
  ghost predicate Holds(id: string, q: Machine, b: Active) {
    q.finalizer && (q.status.serverID == id || (b.unsavedServer && HasMemory(b.run) && b.run.m.status.serverID == id))
  }

  /** A server owned by the object of the running reconcile stays so, unless it is the one that the call deletes. */
  lemma OwnedKept(servers: map<string, Uid>, a: Active, p: Machine, reply: Reply, run': Run, id: string)
    requires FlagsSound(a) && Fits(Pending(a.run), reply) && Change(a.run, reply, run')
    requires HasMemory(a.run) ==> Matches(a, p) && Watched(servers, a, p) && Alone(a, p) && Remembered(servers, a, p)
    requires id in servers && id != "" && Holds(id, p, a)
    requires a.run.Polling? && reply.read.ServerFailed? ==> a.run.m.status.serverID !in servers
    requires a.run.Saving? && reply.Refused? ==> !a.unsavedServer
    ensures Holds(id, Stored(a, p, reply), Track(a, reply, run'))
  {}

  /** A server that a careful call makes is in memory behind it. */
  lemma OwnedFresh(s: State, reply: Reply, side: Option<string>, run': Run)
    requires Sound(s) && Answered(s, reply, side, run') && Recorded(s) && Guards(s) && Careful(s, Answer(reply, 0, side))
    requires Made(Pending(s.active.value.run), reply, side).Some?
    ensures var a := s.active.value;
            a.uid in s.objects && !run'.Finished? &&
            Holds(Made(Pending(a.run), reply, side).value, Stored(a, s.objects[a.uid], reply), Track(a, reply, run'))
  {}

  lemma OwnedLift(s: State, reply: Reply, side: Option<string>, run': Run, id: string)
    requires s.active.Some? && !s.active.value.run.Finished? && Fits(Pending(s.active.value.run), reply) && ObjectsSound(s)
    requires Owned(s, id)
    requires var a := s.active.value; var made := Made(Pending(a.run), reply, side);
             made == Some(id) || (id in s.servers && s.servers[id] == a.uid) ==>
               a.uid in s.objects && Holds(id, Stored(a, s.objects[a.uid], reply), Track(a, reply, run'))
    ensures Owned(Advance(s, reply, side, run'), id)
  {
    ObjectsAdvance(s, reply, side, run');
  }

  lemma OwnedAdvance(s: State, reply: Reply, side: Option<string>, run': Run, id: string)
    requires Sound(s) && Answered(s, reply, side, run') && Recorded(s) && Guards(s) && Kept(s)
    requires Careful(s, Answer(reply, 0, side))
    ensures Owned(Advance(s, reply, side, run'), id)
  {
    var a := s.active.value;
    assert Owned(s, id);
    if Made(Pending(a.run), reply, side) == Some(id) {
      OwnedFresh(s, reply, side, run');
    } else if id in s.servers && s.servers[id] == a.uid {
      OwnedKept(s.servers, a, s.objects[a.uid], reply, run', id);
    }
    OwnedLift(s, reply, side, run', id);
  }

  lemma RememberedAdvance(s: State, reply: Reply, side: Option<string>, run': Run)
    requires Sound(s) && Answered(s, reply, side, run') && Recorded(s) && Guards(s) && Kept(s)
    requires Careful(s, Answer(reply, 0, side))
    requires HasMemory(run') && s.active.value.uid in s.objects
    ensures var a := s.active.value;
            Remembered(ServersAfter(s, a.uid, Pending(a.run), reply, side), Track(a, reply, run'),
                       Stored(a, s.objects[a.uid], reply))
  {
    assert "" !in s.servers;
  }

  lemma KeptAdvance(s: State, reply: Reply, side: Option<string>, run': Run)
    requires Sound(s) && Answered(s, reply, side, run') && Recorded(s) && Guards(s) && Kept(s)
    requires Careful(s, Answer(reply, 0, side))
    ensures Kept(Advance(s, reply, side, run'))
  {
    var a, t := s.active.value, Advance(s, reply, side, run');
    ObjectsAdvance(s, reply, side, run');
    forall id ensures Owned(t, id) {
      OwnedAdvance(s, reply, side, run', id);
    }
    if HasMemory(run') && a.uid in s.objects {
      RememberedAdvance(s, reply, side, run');
    }
  }

  lemma KeptMeanwhile(s: State, a: Action)
    requires Sound(s) && Guards(s) && Kept(s) && Legal(s, a) && Careful(s, a) && !a.Answer?
    ensures Kept(Step(s, a))
  {
    forall id ensures Owned(Step(s, a), id) {
      assert Owned(s, id);
    }
  }

  lemma KeptStep(s: State, a: Action)
    requires Sound(s) && Recorded(s) && Guards(s) && Kept(s) && Legal(s, a) && Careful(s, a)
    ensures Kept(Step(s, a))
  {
    if a.Answer? {
      var run' := AnswerAdvances(s, a);
      KeptAdvance(s, a.reply, a.side, run');
    } else {
      KeptMeanwhile(s, a);
    }
  }

  lemma {:induction false} AlwaysKept(actions: seq<Action>)
    requires CarefulRun(actions)
    ensures Kept(Execute(actions).value)
  {
    if actions != [] {
      var n := |actions| - 1;
      assert forall i :: 0 <= i < n ==> actions[..n][..i] == actions[..i];
      AlwaysSound(actions[..n]);
      AlwaysRecorded(actions[..n]);
      AlwaysGuards(actions[..n]);
      AlwaysKept(actions[..n]);
      KeptStep(Execute(actions[..n]).value, actions[n]);
    }
  }

  /**
   * Without accidents, every live server belongs to an existing object that carries the finalizer, and is the one on
   * its record, except while the reconcile that made it has not saved it yet. So an object that is gone leaves no
   * server behind, and no object has two.
   */
  lemma NoServerIsOrphaned(actions: seq<Action>, id: string)
    requires CarefulRun(actions)
    ensures var s := Execute(actions).value;
            id in s.servers ==>
              var u := s.servers[id];
              u in s.objects && s.objects[u].finalizer &&
              (s.objects[u].status.serverID == id || (Unsaved(s, u) && s.active.value.run.m.status.serverID == id))
  {
    AlwaysKept(actions);
    assert Owned(Execute(actions).value, id);
  }
}
