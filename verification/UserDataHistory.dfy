/** User data over runs: how much is created, and which server uses it. */
module UserDataHistory {
  import opened Prelude
  import opened Api
  import opened MachineFlow
  import opened MachineSteps
  import opened Fleet
  import opened FleetInvariant
  import opened History

  // ---- how many are created ----

  function Uploads(s: State, uid: Uid): nat {
    Count(s.log, DataMade, uid)
  }

  /** What may cost another upload: a reply without an id, and an upload that was never recorded. */
  function Mishaps(s: State, uid: Uid): nat {
    Count(s.log, DataBlank, uid) + Count(s.log, DataUnsaved, uid)
  }

  ghost predicate DataUnrecorded(s: State, uid: Uid) {
    s.active.Some? && s.active.value.uid == uid && s.active.value.unsavedData
  }

  ghost predicate NoDataInMemory(s: State, uid: Uid) {
    s.active.Some? && s.active.value.uid == uid && HasMemory(s.active.value.run) &&
    s.active.value.run.m.status.userDataID == ""
  }

  ghost predicate Bounded(s: State, uid: Uid) {
    && Uploads(s, uid) <= 1 + Mishaps(s, uid)
    && (uid !in s.known ==> Uploads(s, uid) == 0)
    && (NoDataInMemory(s, uid) ==> Uploads(s, uid) <= Mishaps(s, uid))
    && (uid in s.objects && s.objects[uid].status.userDataID == "" && !DataUnrecorded(s, uid) ==>
          Uploads(s, uid) <= Mishaps(s, uid))
  }

  lemma UploadCounts(a: Active, reply: Reply, uid: Uid)
    requires !a.run.Finished? && Fits(Pending(a.run), reply)
    ensures var e, made := Exchange(a.uid, Pending(a.run), reply), a.uid == uid && a.run.Uploading? && reply.Minted?;
            (Is(DataMade, uid, e) <==> made) && (Is(DataBlank, uid, e) <==> made && reply.id == "") && !Is(DataUnsaved, uid, e)
  {}

  lemma CountsAdvance(s: State, reply: Reply, side: Option<string>, run': Run, uid: Uid)
    requires s.active.Some? && !s.active.value.run.Finished? && Fits(Pending(s.active.value.run), reply)
    ensures var a, t := s.active.value, Advance(s, reply, side, run'); var own := a.uid == uid;
            var made := own && a.run.Uploading? && reply.Minted?;
            Uploads(t, uid) == Uploads(s, uid) + One(made) &&
            Mishaps(t, uid) == Mishaps(s, uid) + One(made && reply.id == "")
                               + One(own && run'.Finished? && Track(a, reply, run').unsavedData)
  {
    UploadCounts(s.active.value, reply, uid);
    CountAdvance(s, reply, side, run', DataMade, uid);
    CountAdvance(s, reply, side, run', DataBlank, uid);
    CountAdvance(s, reply, side, run', DataUnsaved, uid);
  }

  /** Patching keeps the bound: a patch without a user data id comes from a memory without one. */
  lemma StoredBounded(s: State, reply: Reply, side: Option<string>, run': Run, uid: Uid)
    requires Sound(s) && Answered(s, reply, side, run') && Bounded(s, uid)
    ensures var t := Advance(s, reply, side, run');
            uid in t.objects && t.objects[uid].status.userDataID == "" && !DataUnrecorded(t, uid) ==>
              Uploads(t, uid) <= Mishaps(t, uid)
  {
    CountsAdvance(s, reply, side, run', uid);
    ObjectsAdvance(s, reply, side, run');
  }

  lemma BoundedAdvance(s: State, reply: Reply, side: Option<string>, run': Run, uid: Uid)
    requires Sound(s) && Answered(s, reply, side, run') && Bounded(s, uid)
    ensures Bounded(Advance(s, reply, side, run'), uid)
  {
    CountsAdvance(s, reply, side, run', uid);
    StoredBounded(s, reply, side, run', uid);
  }

  lemma BoundedStep(s: State, a: Action, uid: Uid)
    requires Sound(s) && Legal(s, a) && Bounded(s, uid)
    ensures Bounded(Step(s, a), uid)
  {
    match a
    case Answer(reply, now, side) =>
      var run' := AnswerAdvances(s, a);
      BoundedAdvance(s, reply, side, run', uid);
    case Crash =>
      var b := s.active.value;
      forall kind {
        CountAppend(s.log, Closed(b.uid, b.unsavedServer, b.unsavedData, None), kind, uid);
      }
    case _ =>
  }

  lemma {:induction false} AlwaysBounded(actions: seq<Action>, uid: Uid)
    requires Execute(actions).Some?
    ensures Bounded(Execute(actions).value, uid)
  {
    if actions != [] {
      var n := |actions| - 1;
      AlwaysBounded(actions[..n], uid);
      AlwaysSound(actions[..n]);
      BoundedStep(Execute(actions[..n]).value, actions[n], uid);
    }
  }

  /**
   * In every run, the user data created for one object number at most one, plus one for each reply without an id,
   * plus one for each reconcile that created user data and saw no patch succeed after that.
   */
  lemma UserDataIsBounded(actions: seq<Action>, uid: Uid)
    requires Execute(actions).Some?
    ensures var log := Execute(actions).value.log;
            Count(log, DataMade, uid) <= 1 + Count(log, DataBlank, uid) + Count(log, DataUnsaved, uid)
  {
    AlwaysBounded(actions, uid);
  }

  // ---- which server uses it ----

  /** This server was ordered for u with this user data, under the machine's host name. */
  predicate Order(e: Event, u: Uid, m: Machine) {
    e.Exchange? && e.uid == u && e.call.CreateServer? && e.reply == Minted(m.status.serverID) &&
    e.call.spec.userData == m.status.userDataID && e.call.spec.hostname == m.namespace + "-" + m.name &&
    e.call.spec.project != "" && e.call.spec.plan != "" && e.call.spec.os != "" && e.call.spec.site != ""
  }

  ghost predicate Ordered(log: seq<Event>, u: Uid, m: Machine) {
    m.status.serverID != "" ==> exists i :: 0 <= i < |log| && Order(log[i], u, m)
  }

  ghost predicate AllOrdered(s: State) {
    && (forall u :: u in s.objects ==> Ordered(s.log, u, s.objects[u]))
    && (s.active.Some? && HasMemory(s.active.value.run) ==> Ordered(s.log, s.active.value.uid, s.active.value.run.m))
  }

  lemma OrderedGrows(log: seq<Event>, more: seq<Event>, u: Uid, m: Machine, m': Machine)
    requires Ordered(log, u, m) && m'.status.serverID in {"", m.status.serverID}
    requires m'.status.serverID != "" ==> m'.status.userDataID == m.status.userDataID
    requires m'.namespace == m.namespace && m'.name == m.name
    ensures Ordered(log + more, u, m')
  {
    if m'.status.serverID != "" {
      var i :| 0 <= i < |log| && Order(log[i], u, m);
      assert Order((log + more)[i], u, m');
    }
  }

  lemma MemoryOrdered(s: State, reply: Reply, side: Option<string>, run': Run)
    requires Sound(s) && AllOrdered(s) && Answered(s, reply, side, run') && HasMemory(run')
    ensures Ordered(Advance(s, reply, side, run').log, s.active.value.uid, run'.m)
  {
    var a := s.active.value;
    var e := Exchange(a.uid, Pending(a.run), reply);
    if a.run.Creating? && reply.Minted? {
      assert Order((s.log + [e])[|s.log|], a.uid, run'.m);
    } else {
      OrderedGrows(s.log, [e], a.uid, if a.run.Reading? then s.objects[a.uid] else a.run.m, run'.m);
    }
  }

  lemma ObjectOrdered(s: State, reply: Reply, side: Option<string>, run': Run, u: Uid)
    requires s.active.Some? && !s.active.value.run.Finished? && Fits(Pending(s.active.value.run), reply)
    requires Sound(s) && AllOrdered(s) && u in s.objects
    ensures var t := Advance(s, reply, side, run'); u in t.objects && Ordered(t.log, u, t.objects[u])
  {
    var a, t := s.active.value, Advance(s, reply, side, run');
    ObjectsAdvance(s, reply, side, run');
    var source := if u == a.uid && Pending(a.run).Save? && reply.Accepted? then a.run.m else s.objects[u];
    OrderedGrows(s.log, t.log[|s.log|..], u, source, t.objects[u]);
    assert s.log + t.log[|s.log|..] == t.log;
  }

  lemma OrderedAdvance(s: State, reply: Reply, side: Option<string>, run': Run)
    requires Sound(s) && AllOrdered(s) && Answered(s, reply, side, run')
    ensures AllOrdered(Advance(s, reply, side, run'))
  {
    var t := Advance(s, reply, side, run');
    ObjectsAdvance(s, reply, side, run');
    forall u | u in t.objects ensures Ordered(t.log, u, t.objects[u]) {
      ObjectOrdered(s, reply, side, run', u);
    }
    if HasMemory(run') {
      MemoryOrdered(s, reply, side, run');
    }
  }

  lemma OrderedMeanwhile(s: State, a: Action)
    requires ObjectsSound(s) && AllOrdered(s) && Legal(s, a) && !a.Answer?
    ensures AllOrdered(Step(s, a))
  {
    var t := Step(s, a);
    var more := t.log[|s.log|..];
    assert t.log == s.log + more;
    forall u | u in t.objects ensures Ordered(t.log, u, t.objects[u]) {
      if u in s.objects {
        OrderedGrows(s.log, more, u, s.objects[u], t.objects[u]);
      }
    }
    if t.active.Some? && HasMemory(t.active.value.run) {
      OrderedGrows(s.log, more, t.active.value.uid, t.active.value.run.m, t.active.value.run.m);
    }
  }

  lemma OrderedStep(s: State, a: Action)
    requires Sound(s) && AllOrdered(s) && Legal(s, a)
    ensures AllOrdered(Step(s, a))
  {
    if a.Answer? {
      var run' := AnswerAdvances(s, a);
      OrderedAdvance(s, a.reply, a.side, run');
    } else {
      OrderedMeanwhile(s, a);
    }
  }

  lemma {:induction false} AlwaysOrdered(actions: seq<Action>)
    requires Execute(actions).Some?
    ensures AllOrdered(Execute(actions).value)
  {
    if actions != [] {
      var n := |actions| - 1;
      AlwaysSound(actions[..n]);
      AlwaysOrdered(actions[..n]);
      OrderedStep(Execute(actions[..n]).value, actions[n]);
    }
  }

  /** In every run, a server on record was ordered for that machine, with the user data on record and a complete spec. */
  lemma ServersUseRecordedData(actions: seq<Action>, u: Uid) returns (i: nat)
    requires Execute(actions).Some?
    requires u in Execute(actions).value.objects && Execute(actions).value.objects[u].status.serverID != ""
    ensures var s := Execute(actions).value; i < |s.log| && Order(s.log[i], u, s.objects[u])
  {
    AlwaysOrdered(actions);
    var s := Execute(actions).value;
    assert Ordered(s.log, u, s.objects[u]);
    i :| 0 <= i < |s.log| && Order(s.log[i], u, s.objects[u]);
  }
}
