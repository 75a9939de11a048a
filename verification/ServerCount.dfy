/** How many servers a machine can ever cost: one, and one more for each accident. */
module ServerCount {
  import opened Prelude
  import opened Api
  import opened MachineFlow
  import opened MachineSteps
  import opened Fleet
  import opened FleetInvariant
  import opened History

  function Servers(s: State, uid: Uid): nat {
    Count(s.log, ServerMade, uid)
  }

  /** The accidents that may cost a server: a failed GetServer, and a created server that was never recorded. */
  function Accidents(s: State, uid: Uid): nat {
    Count(s.log, PollFailed, uid) + Count(s.log, ServerUnsaved, uid)
  }

  ghost predicate Unrecorded(s: State, uid: Uid) {
    s.active.Some? && s.active.value.uid == uid && s.active.value.unsavedServer
  }

  ghost predicate NoneInMemory(s: State, uid: Uid) {
    s.active.Some? && s.active.value.uid == uid && HasMemory(s.active.value.run) &&
    s.active.value.run.m.status.serverID == ""
  }

  /**
   * The invariant behind the bound: the servers never exceed the accidents by more than the one on record, neither in
   * the API server nor in memory.
   */
  ghost predicate Accounted(s: State, uid: Uid) {
    && Servers(s, uid) <= 1 + Accidents(s, uid)
    && (uid !in s.known ==> Servers(s, uid) == 0)
    && (NoneInMemory(s, uid) ==> Servers(s, uid) <= Accidents(s, uid))
    && (uid in s.objects && s.objects[uid].status.serverID == "" && !Unrecorded(s, uid) ==>
          Servers(s, uid) <= Accidents(s, uid))
  }

  lemma CountsAdvance(s: State, reply: Reply, side: Option<string>, run': Run, uid: Uid)
    requires s.active.Some? && !s.active.value.run.Finished? && Fits(Pending(s.active.value.run), reply)
    ensures var a, t := s.active.value, Advance(s, reply, side, run'); var own := a.uid == uid;
            Servers(t, uid) == Servers(s, uid) + One(own && a.run.Creating? && reply.Minted?) &&
            Accidents(t, uid) == Accidents(s, uid) + One(own && a.run.Polling? && reply.read.ServerFailed?)
                                 + One(own && run'.Finished? && Track(a, reply, run').unsavedServer)
  {
    CountAdvance(s, reply, side, run', ServerMade, uid);
    CountAdvance(s, reply, side, run', PollFailed, uid);
    CountAdvance(s, reply, side, run', ServerUnsaved, uid);
  }

  /** Patching keeps the accounts: a patch without a server id comes from a memory without one. */
  lemma StoredAccounted(s: State, reply: Reply, side: Option<string>, run': Run, uid: Uid)
    requires Sound(s) && Answered(s, reply, side, run') && Accounted(s, uid)
    ensures var t := Advance(s, reply, side, run');
            uid in t.objects && t.objects[uid].status.serverID == "" && !Unrecorded(t, uid) ==>
              Servers(t, uid) <= Accidents(t, uid)
  {
    CountsAdvance(s, reply, side, run', uid);
    ObjectsAdvance(s, reply, side, run');
  }

  lemma AccountedAdvance(s: State, reply: Reply, side: Option<string>, run': Run, uid: Uid)
    requires Sound(s) && Answered(s, reply, side, run') && Accounted(s, uid)
    ensures Accounted(Advance(s, reply, side, run'), uid)
  {
    CountsAdvance(s, reply, side, run', uid);
    StoredAccounted(s, reply, side, run', uid);
  }

  lemma AccountedStep(s: State, a: Action, uid: Uid)
    requires Sound(s) && Legal(s, a) && Accounted(s, uid)
    ensures Accounted(Step(s, a), uid)
  {
    match a
    case Answer(reply, now, side) =>
      var run' := AnswerAdvances(s, a);
      AccountedAdvance(s, reply, side, run', uid);
    case Crash =>
      var b := s.active.value;
      forall kind {
        CountAppend(s.log, Closed(b.uid, b.unsavedServer, b.unsavedData, None), kind, uid);
      }
    case _ =>
  }

  lemma {:induction false} AlwaysAccounted(actions: seq<Action>, uid: Uid)
    requires Execute(actions).Some?
    ensures Accounted(Execute(actions).value, uid)
  {
    if actions != [] {
      var n := |actions| - 1;
      AlwaysAccounted(actions[..n], uid);
      AlwaysSound(actions[..n]);
      AccountedStep(Execute(actions[..n]).value, actions[n], uid);
    }
  }

  /**
   * In every run, with GetServer failing, patches lost and the process crashing at will, the CreateServer calls that
   * succeeded for one object number at most one, plus one for each failed GetServer, plus one for each reconcile that
   * created a server and saw no patch succeed after that.
   */
  lemma ServersAreBounded(actions: seq<Action>, uid: Uid)
    requires Execute(actions).Some?
    ensures var log := Execute(actions).value.log;
            Count(log, ServerMade, uid) <= 1 + Count(log, PollFailed, uid) + Count(log, ServerUnsaved, uid)
  {
    AlwaysAccounted(actions, uid);
  }

  // ---- every server, also those whose creation was answered with an error ----

  /** The servers that were ever made for an object. */
  ghost function Issued(issued: map<string, Uid>, uid: Uid): set<string> {
    set id | id in issued && issued[id] == uid
  }

  lemma OneMore(issued: map<string, Uid>, id: string, owner: Uid, uid: Uid)
    requires id !in issued
    ensures |Issued(issued[id := owner], uid)| == |Issued(issued, uid)| + One(owner == uid)
  {
    if owner == uid {
      assert Issued(issued[id := owner], uid) == Issued(issued, uid) + {id};
    } else {
      assert Issued(issued[id := owner], uid) == Issued(issued, uid);
    }
  }

  ghost predicate Covered(s: State, uid: Uid) {
    |Issued(s.issued, uid)| <= Servers(s, uid) + Count(s.log, OrderRefused, uid)
  }

  lemma IssuedAdvance(s: State, reply: Reply, side: Option<string>, run': Run, uid: Uid)
    requires s.active.Some? && !s.active.value.run.Finished? && Fits(Pending(s.active.value.run), reply)
    requires var made := Made(Pending(s.active.value.run), reply, side); made.Some? ==> FreshServer(s, made.value)
    ensures var a := s.active.value; var made := Made(Pending(a.run), reply, side);
            |Issued(Advance(s, reply, side, run').issued, uid)| == |Issued(s.issued, uid)| + One(made.Some? && a.uid == uid)
  {
    var a := s.active.value;
    var made := Made(Pending(a.run), reply, side);
    if made.Some? {
      OneMore(s.issued, made.value, a.uid, uid);
    }
  }

  lemma CoveredAdvance(s: State, reply: Reply, side: Option<string>, run': Run, uid: Uid)
    requires Covered(s, uid) && Answered(s, reply, side, run')
    ensures Covered(Advance(s, reply, side, run'), uid)
  {
    IssuedAdvance(s, reply, side, run', uid);
    CountAdvance(s, reply, side, run', ServerMade, uid);
    CountAdvance(s, reply, side, run', OrderRefused, uid);
  }

  lemma CoveredStep(s: State, a: Action, uid: Uid)
    requires Sound(s) && Covered(s, uid) && Legal(s, a)
    ensures Covered(Step(s, a), uid)
  {
    match a
    case Answer(reply, now, side) =>
      var run' := AnswerAdvances(s, a);
      CoveredAdvance(s, reply, side, run', uid);
    case Crash =>
      var b := s.active.value;
      forall kind {
        CountAppend(s.log, Closed(b.uid, b.unsavedServer, b.unsavedData, None), kind, uid);
      }
    case _ =>
  }

  lemma {:induction false} AlwaysCovered(actions: seq<Action>, uid: Uid)
    requires Execute(actions).Some?
    ensures Covered(Execute(actions).value, uid)
  {
    if actions == [] {
      assert Issued(EMPTY.issued, uid) == {};
    } else {
      var n := |actions| - 1;
      AlwaysSound(actions[..n]);
      AlwaysCovered(actions[..n], uid);
      CoveredStep(Execute(actions[..n]).value, actions[n], uid);
    }
  }

  /**
   * In every run, all servers that were ever made for one object, also those whose creation was answered with an error,
   * number at most one, plus the accidents of ServersAreBounded, plus one for each refused CreateServer.
   */
  lemma IssuedServersAreBounded(actions: seq<Action>, uid: Uid)
    requires Execute(actions).Some?
    ensures var s := Execute(actions).value;
            |Issued(s.issued, uid)| <= 1 + Count(s.log, PollFailed, uid) + Count(s.log, ServerUnsaved, uid)
                                + Count(s.log, OrderRefused, uid)
  {
    ServersAreBounded(actions, uid);
    AlwaysCovered(actions, uid);
  }
}
