/** When a live server loses its owner: the three accidents, and nothing else. */
module ServerLoss {
  import opened Prelude
  import opened Api
  import opened MachineFlow
  import opened MachineSteps
  import opened Fleet
  import opened FleetInvariant
  import opened ServerOwnership

  /** The owner's own reconcile patches another server id, or none, over this one. */
  ghost predicate Overwrites(s: State, a: Action, id: string)
    requires Legal(s, a) && id in s.servers
  {
    a.Answer? &&
    var b := s.active.value;
    && b.uid == s.servers[id] && b.uid in s.objects && s.objects[b.uid].status.serverID == id
    && Pending(b.run).Save? && a.reply.Accepted? && b.run.m.status.serverID != id
  }

  /** The reconcile that made the server ends, by a crash or with its last patch refused, and has not saved it. */
  ghost predicate Forgets(s: State, a: Action, id: string)
    requires Legal(s, a) && id in s.servers
  {
    && Unsaved(s, s.servers[id]) && s.active.value.run.m.status.serverID == id
    && (a.Crash? || (a.Answer? && s.active.value.run.Saving? && a.reply.Refused?))
  }

  /** CreateServer is answered with an error, and has made this server all the same. */
  ghost predicate Strands(s: State, a: Action, id: string)
    requires Legal(s, a)
  {
    a.Answer? && s.active.value.run.Creating? && a.side == Some(id)
  }

  ghost predicate Accident(s: State, a: Action, id: string)
    requires Legal(s, a)
  {
    if id in s.servers then Overwrites(s, a, id) || Forgets(s, a, id) else Strands(s, a, id)
  }

  /** Being owned, by the object of the running reconcile, is a matter of its record and of the memory. */
  lemma OwnedBehindAnswer(s: State, reply: Reply, side: Option<string>, run': Run, id: string)
    requires s.active.Some? && !s.active.value.run.Finished? && Fits(Pending(s.active.value.run), reply) && ObjectsSound(s)
    requires var t, u := Advance(s, reply, side, run'), s.active.value.uid;
             id in t.servers && t.servers[id] == u && u in s.objects
    ensures var a := s.active.value;
            Owned(Advance(s, reply, side, run'), id) <==> Holds(id, Stored(a, s.objects[a.uid], reply), Track(a, reply, run'))
  {
    ObjectsAdvance(s, reply, side, run');
  }

  lemma LossOnCrash(s: State, id: string)
    requires Sound(s) && Recorded(s) && Guards(s) && Legal(s, Crash) && id in s.servers
    ensures Owned(Step(s, Crash), id) <==> Owned(s, id) && !Accident(s, Crash, id)
  {}

  lemma LossMeanwhile(s: State, a: Action, id: string)
    requires Sound(s) && Guards(s) && Legal(s, a) && !a.Answer? && !a.Crash? && id in s.servers && id in Step(s, a).servers
    ensures Owned(Step(s, a), id) <==> Owned(s, id)
    ensures !Accident(s, a, id)
  {}

  /** The record is patched over, or the reconcile ends with the server in memory alone. */
  predicate Drops(a: Active, p: Machine, reply: Reply, id: string)
    requires HasMemory(a.run) && Fits(Pending(a.run), reply)
  {
    if p.status.serverID == id then Pending(a.run).Save? && reply.Accepted? && a.run.m.status.serverID != id
    else a.run.Saving? && reply.Refused?
  }

  lemma LossOfRecord(servers: map<string, Uid>, a: Active, p: Machine, reply: Reply, run': Run, id: string)
    requires FlagsSound(a) && Fits(Pending(a.run), reply) && Change(a.run, reply, run') && HasMemory(a.run) && Matches(a, p)
    requires Watched(servers, a, p) && Alone(a, p) && Guarded(servers, p)
    requires id in servers && id != "" && p.status.serverID == id && (a.run.Creating? && reply.Minted? ==> reply.id != id)
    ensures Holds(id, Stored(a, p, reply), Track(a, reply, run')) <==> Holds(id, p, a) && !Drops(a, p, reply, id)
  {}

  lemma LossOfMemory(servers: map<string, Uid>, a: Active, p: Machine, reply: Reply, run': Run, id: string)
    requires FlagsSound(a) && Fits(Pending(a.run), reply) && Change(a.run, reply, run') && HasMemory(a.run) && Matches(a, p)
    requires Watched(servers, a, p) && Alone(a, p)
    requires id in servers && id != "" && p.status.serverID != id && (a.run.Creating? && reply.Minted? ==> reply.id != id)
    ensures Holds(id, Stored(a, p, reply), Track(a, reply, run')) <==> Holds(id, p, a) && !Drops(a, p, reply, id)
  {}

  /** The record and the memory keep the server unless they drop it. */
  lemma LossOfOwner(s: State, reply: Reply, side: Option<string>, run': Run, id: string)
    requires Sound(s) && Answered(s, reply, side, run') && Recorded(s) && Guards(s) && HasMemory(s.active.value.run)
    requires id in s.servers && s.servers[id] == s.active.value.uid && s.active.value.uid in s.objects
    requires Made(Pending(s.active.value.run), reply, side) != Some(id)
    ensures var a := s.active.value; var p := s.objects[a.uid];
            Holds(id, Stored(a, p, reply), Track(a, reply, run')) <==> Holds(id, p, a) && !Drops(a, p, reply, id)
  {
    var a := s.active.value;
    if s.objects[a.uid].status.serverID == id {
      LossOfRecord(s.servers, a, s.objects[a.uid], reply, run', id);
    } else {
      LossOfMemory(s.servers, a, s.objects[a.uid], reply, run', id);
    }
  }

  /** The first answer only reads. */
  lemma LossOnReading(s: State, a: Action, run': Run, id: string)
    requires Sound(s) && Recorded(s) && Guards(s) && Legal(s, a) && a.Answer? && Answered(s, a.reply, a.side, run')
    requires id in s.servers && s.servers[id] == s.active.value.uid && s.active.value.uid in s.objects
    requires s.active.value.run.Reading?
    ensures Owned(Advance(s, a.reply, a.side, run'), id) <==> Owned(s, id) && !Accident(s, a, id)
  {}

  /** The answer to another object's reconcile changes nothing about it. */
  lemma LossOfOther(s: State, reply: Reply, side: Option<string>, run': Run, id: string)
    requires s.active.Some? && !s.active.value.run.Finished? && Fits(Pending(s.active.value.run), reply) && ObjectsSound(s)
    requires var t := Advance(s, reply, side, run'); id in s.servers && id in t.servers && t.servers[id] == s.servers[id]
    requires s.servers[id] != s.active.value.uid || s.active.value.uid !in s.objects
    ensures Owned(Advance(s, reply, side, run'), id) <==> Owned(s, id)
  {
    ObjectsAdvance(s, reply, side, run');
  }

  lemma DropsAreAccidents(s: State, a: Action, id: string)
    requires Sound(s) && Guards(s) && Legal(s, a) && a.Answer? && HasMemory(s.active.value.run)
    requires id in s.servers && s.servers[id] == s.active.value.uid && s.active.value.uid in s.objects
    ensures var b := s.active.value; var p := s.objects[b.uid];
            Holds(id, p, b) && !Drops(b, p, a.reply, id) <==> Owned(s, id) && !Accident(s, a, id)
  {}

  lemma LossInMemory(s: State, a: Action, run': Run, id: string)
    requires Sound(s) && Recorded(s) && Guards(s) && Legal(s, a) && a.Answer? && Answered(s, a.reply, a.side, run')
    requires id in s.servers && id in Advance(s, a.reply, a.side, run').servers && HasMemory(s.active.value.run)
    requires s.servers[id] == s.active.value.uid && s.active.value.uid in s.objects
    requires Advance(s, a.reply, a.side, run').servers[id] == s.servers[id]
    requires Made(Pending(s.active.value.run), a.reply, a.side) != Some(id)
    ensures Owned(Advance(s, a.reply, a.side, run'), id) <==> Owned(s, id) && !Accident(s, a, id)
  {
    OwnedBehindAnswer(s, a.reply, a.side, run', id);
    LossOfOwner(s, a.reply, a.side, run', id);
    DropsAreAccidents(s, a, id);
  }

  lemma LossAdvance(s: State, a: Action, run': Run, id: string)
    requires Sound(s) && Recorded(s) && Guards(s) && Legal(s, a) && a.Answer? && Answered(s, a.reply, a.side, run')
    requires id in s.servers && id in Advance(s, a.reply, a.side, run').servers
    ensures Owned(Advance(s, a.reply, a.side, run'), id) <==> Owned(s, id) && !Accident(s, a, id)
  {
    ServersStay(s, a, run', id);
    if s.active.value.uid != s.servers[id] || s.active.value.uid !in s.objects {
      LossOfOther(s, a.reply, a.side, run', id);
    } else if s.active.value.run.Reading? {
      LossOnReading(s, a, run', id);
    } else {
      LossInMemory(s, a, run', id);
    }
  }

  lemma ServersStay(s: State, a: Action, run': Run, id: string)
    requires Recorded(s) && Legal(s, a) && a.Answer? && Answered(s, a.reply, a.side, run') && id in s.servers
    requires id in Advance(s, a.reply, a.side, run').servers
    ensures Advance(s, a.reply, a.side, run').servers[id] == s.servers[id]
    ensures Made(Pending(s.active.value.run), a.reply, a.side) != Some(id)
  {
    LiveIsIssued(s);
  }

  /** Behind CreateServer, the memory holds the new server, unsaved, unless the answer was an error. */
  lemma BirthInMemory(a: Active, p: Machine, reply: Reply, run': Run, id: string)
    requires FlagsSound(a) && a.run.Creating? && Fits(Pending(a.run), reply) && Change(a.run, reply, run') && Matches(a, p)
    requires id != "" && p.status.serverID != id && (reply.Minted? ==> reply.id == id)
    ensures Holds(id, Stored(a, p, reply), Track(a, reply, run')) <==> reply.Minted?
  {}

  lemma NewIsMade(s: State, a: Action, run': Run, id: string)
    requires Legal(s, a) && a.Answer? && id !in s.servers && id in Advance(s, a.reply, a.side, run').servers
    ensures Made(Pending(s.active.value.run), a.reply, a.side) == Some(id) && (Strands(s, a, id) <==> !a.reply.Minted?)
    ensures Advance(s, a.reply, a.side, run').servers[id] == s.active.value.uid
  {}

  /** A new server has an owner unless its creation was answered with an error. */
  lemma BirthAdvance(s: State, a: Action, run': Run, id: string)
    requires Sound(s) && Recorded(s) && Legal(s, a) && a.Answer? && Answered(s, a.reply, a.side, run')
    requires id !in s.servers && id in Advance(s, a.reply, a.side, run').servers
    ensures Owned(Advance(s, a.reply, a.side, run'), id) <==> !Strands(s, a, id)
  {
    NewIsMade(s, a, run', id);
    var b := s.active.value;
    assert MadeFor(s, s.objects[b.uid].status.serverID, b.uid);
    BirthInMemory(b, s.objects[b.uid], a.reply, run', id);
    OwnedBehindAnswer(s, a.reply, a.side, run', id);
  }

  /** Exactly when a live server has an owner behind a step. */
  lemma OwnedBehind(s: State, a: Action, id: string)
    requires Sound(s) && Recorded(s) && Guards(s) && Legal(s, a) && id in Step(s, a).servers
    ensures Owned(Step(s, a), id) <==> Owned(s, id) && !Accident(s, a, id)
  {
    if a.Answer? {
      var run' := AnswerAdvances(s, a);
      if id in s.servers {
        LossAdvance(s, a, run', id);
      } else {
        BirthAdvance(s, a, run', id);
      }
    } else if a.Crash? {
      LossOnCrash(s, id);
    } else {
      LossMeanwhile(s, a, id);
    }
  }

  // ---- over whole runs ----

  ghost predicate AccidentAt(actions: seq<Action>, i: nat, id: string)
    requires i < |actions|
  {
    var before := Execute(actions[..i]);
    before.Some? && Legal(before.value, actions[i]) && Accident(before.value, actions[i], id)
  }

  lemma IssuedGrows(s: State, a: Action, id: string)
    requires Sound(s) && Recorded(s) && Legal(s, a) && (id in s.issued || Accident(s, a, id))
    ensures id in Step(s, a).issued
  {
    LiveIsIssued(s);
  }

  /** No accident happens to a server before it is made. */
  lemma {:induction false} AccidentsAreIssued(actions: seq<Action>, i: nat, id: string)
    requires Execute(actions).Some? && i < |actions| && AccidentAt(actions, i, id)
    ensures id in Execute(actions).value.issued
  {
    var n := |actions| - 1;
    AlwaysSound(actions[..n]);
    AlwaysRecorded(actions[..n]);
    if i < n {
      assert actions[..n][..i] == actions[..i];
      AccidentsAreIssued(actions[..n], i, id);
    }
    IssuedGrows(Execute(actions[..n]).value, actions[n], id);
  }

  lemma NewIsUnissued(s: State, a: Action, id: string)
    requires Legal(s, a) && id !in s.servers && id in Step(s, a).servers
    ensures id !in s.issued && a.Answer?
  {}

  /** ... so none happened to a server that was not yet made. */
  lemma NoneBefore(actions: seq<Action>, n: nat, id: string)
    requires n < |actions| && Execute(actions[..n]).Some? && id !in Execute(actions[..n]).value.issued
    ensures forall i :: 0 <= i < n ==> !AccidentAt(actions, i, id)
  {
    Prefixes(actions, n, id);
    forall i | 0 <= i < n ensures !AccidentAt(actions, i, id) {
      if AccidentAt(actions[..n], i, id) {
        AccidentsAreIssued(actions[..n], i, id);
        assert false;
      }
    }
  }

  lemma Prefixes(actions: seq<Action>, n: nat, id: string)
    requires n < |actions|
    ensures forall i :: 0 <= i < n ==> (AccidentAt(actions[..n], i, id) <==> AccidentAt(actions, i, id))
  {
    assert forall i :: 0 <= i < n ==> actions[..n][..i] == actions[..i];
  }

  /** At the last step, a server keeps its owner unless there is an accident; and none came before a server that is new. */
  lemma LastStep(actions: seq<Action>, n: nat, id: string)
    requires Execute(actions).Some? && n + 1 == |actions| && id in Execute(actions).value.servers
    ensures var s, t := Execute(actions[..n]).value, Execute(actions).value;
            && Execute(actions[..n]).Some? && (Owned(t, id) <==> Owned(s, id) && !AccidentAt(actions, n, id))
            && (id !in s.servers ==> forall i :: 0 <= i < n ==> !AccidentAt(actions, i, id))
  {
    var s := Execute(actions[..n]).value;
    AlwaysSound(actions[..n]);
    AlwaysRecorded(actions[..n]);
    AlwaysGuards(actions[..n]);
    OwnedBehind(s, actions[n], id);
    if id !in s.servers {
      NewIsUnissued(s, actions[n], id);
      NoneBefore(actions, n, id);
    }
  }

  /**
   * In every run, a live server has an owner (an object that carries the finalizer, with the server on record or in the
   * memory of the reconcile that made it) exactly if none of these happened to it: a patch over its id, a reconcile that
   * ended without saving it, a creation that was answered with an error. What has lost its owner never gets one again.
   */
  lemma {:induction false} OwnedUnlessAccident(actions: seq<Action>, id: string)
    requires Execute(actions).Some? && id in Execute(actions).value.servers
    ensures Owned(Execute(actions).value, id) <==> forall i :: 0 <= i < |actions| ==> !AccidentAt(actions, i, id)
  {
    var n := |actions| - 1;
    LastStep(actions, n, id);
    Prefixes(actions, n, id);
    if id in Execute(actions[..n]).value.servers {
      OwnedUnlessAccident(actions[..n], id);
    }
  }
}
