/** What Ready means, over every run: it excludes Failed, and is backed by a server that was seen running. */
module Readiness {
  import opened Prelude
  import opened Api
  import opened MachineFlow
  import opened MachineSteps
  import opened Fleet
  import opened FleetInvariant
  import opened MachineLaws
  import MachineHistory

  /** GetServer reported this server as on, active or running to a reconcile of u, letter case aside. */
  predicate Ran(e: Event, u: Uid, server: Server) {
    && e.Exchange? && e.uid == u && e.call == GetServer(server.id) && e.reply == ServerIs(ServerFound(server))
    && (Spells(server.status, "on") || Spells(server.status, "active") || Spells(server.status, "running"))
  }

  /** The provider id and the addresses are those of a server that was seen running. */
  ghost predicate Backed(log: seq<Event>, u: Uid, m: Machine) {
    exists i, server :: 0 <= i < |log| && Ran(log[i], u, server) && server.id == m.status.serverID &&
                        m.status.addresses == AddressesOf(server)
  }

  ghost predicate Settled(log: seq<Event>, u: Uid, m: Machine) {
    m.status.ready ==>
      && m.status.failureReason.None?
      && m.status.serverID != ""
      && m.status.providerID == ProviderID(m.status.serverID)
      && m.spec.providerID == Some(m.status.providerID)
      && Backed(log, u, m)
  }

  ghost predicate AllSettled(s: State) {
    && (forall u :: u in s.objects ==> Settled(s.log, u, s.objects[u]))
    && (s.active.Some? && HasMemory(s.active.value.run) ==> Settled(s.log, s.active.value.uid, s.active.value.run.m))
  }

  lemma SettledGrows(log: seq<Event>, more: seq<Event>, u: Uid, m: Machine)
    requires Settled(log, u, m)
    ensures Settled(log + more, u, m)
  {
    if m.status.ready {
      var i, server :| 0 <= i < |log| && Ran(log[i], u, server) && server.id == m.status.serverID &&
                       m.status.addresses == AddressesOf(server);
      assert Ran((log + more)[i], u, server);
    }
  }

  /** An answer settles the memory: it reported a running server, or the machine is as ready as before. */
  lemma MemorySettled(s: State, reply: Reply, side: Option<string>, run': Run)
    requires Sound(s) && AllSettled(s) && Answered(s, reply, side, run') && HasMemory(run')
    ensures Settled(Advance(s, reply, side, run').log, s.active.value.uid, run'.m)
  {
    var a, t := s.active.value, Advance(s, reply, side, run');
    if JustRan(a.run, reply) {
      MachineHistory.UpMeansRunning(reply.read.server.status);
      assert Ran(t.log[|s.log|], a.uid, reply.read.server);
    } else {
      SettledGrows(s.log, [Exchange(a.uid, Pending(a.run), reply)], a.uid, run'.m);
    }
  }

  lemma ObjectsSettled(s: State, reply: Reply, side: Option<string>, run': Run, u: Uid)
    requires s.active.Some? && !s.active.value.run.Finished? && Fits(Pending(s.active.value.run), reply)
    requires ObjectsSound(s) && AllSettled(s) && u in s.objects
    ensures var t := Advance(s, reply, side, run'); u in t.objects && Settled(t.log, u, t.objects[u])
  {
    var t := Advance(s, reply, side, run');
    ObjectsAdvance(s, reply, side, run');
    SettledGrows(s.log, t.log[|s.log|..], u, t.objects[u]);
    assert s.log + t.log[|s.log|..] == t.log;
  }

  lemma SettledAdvance(s: State, reply: Reply, side: Option<string>, run': Run)
    requires Sound(s) && AllSettled(s) && Answered(s, reply, side, run')
    ensures AllSettled(Advance(s, reply, side, run'))
  {
    var t := Advance(s, reply, side, run');
    ObjectsAdvance(s, reply, side, run');
    forall u | u in t.objects ensures Settled(t.log, u, t.objects[u]) {
      ObjectsSettled(s, reply, side, run', u);
    }
    if HasMemory(run') {
      MemorySettled(s, reply, side, run');
    }
  }

  lemma SettledMeanwhile(s: State, a: Action)
    requires AllSettled(s) && Legal(s, a) && !a.Answer?
    ensures AllSettled(Step(s, a))
  {
    var t := Step(s, a);
    var more := t.log[|s.log|..];
    assert t.log == s.log + more;
    forall u | u in t.objects ensures Settled(t.log, u, t.objects[u]) {
      if u in s.objects {
        SettledGrows(s.log, more, u, s.objects[u]);
      }
    }
    if t.active.Some? && HasMemory(t.active.value.run) {
      SettledGrows(s.log, more, t.active.value.uid, t.active.value.run.m);
    }
  }

  lemma SettledStep(s: State, a: Action)
    requires Sound(s) && AllSettled(s) && Legal(s, a)
    ensures AllSettled(Step(s, a))
  {
    if a.Answer? {
      var run' := AnswerAdvances(s, a);
      SettledAdvance(s, a.reply, a.side, run');
    } else {
      SettledMeanwhile(s, a);
    }
  }

  lemma {:induction false} AlwaysSettled(actions: seq<Action>)
    requires Execute(actions).Some?
    ensures AllSettled(Execute(actions).value)
  {
    if actions != [] {
      var n := |actions| - 1;
      AlwaysSound(actions[..n]);
      AlwaysSettled(actions[..n]);
      SettledStep(Execute(actions[..n]).value, actions[n]);
    }
  }

  /**
   * In every run, a persisted machine that is Ready has not failed, has a server on record, the matching provider id
   * in spec and status, and the addresses of a GetServer reply that reported that server as on, active or running: its
   * IPs in their order, and then its host name if it has one.
   */
  lemma ReadyIsBacked(actions: seq<Action>, u: Uid) returns (i: nat, server: Server)
    requires Execute(actions).Some?
    requires var s := Execute(actions).value; u in s.objects && s.objects[u].status.ready
    ensures var s := Execute(actions).value; var p := s.objects[u];
            && p.status.failureReason.None?
            && p.status.serverID == server.id != ""
            && p.status.providerID == "latitude://" + server.id && p.spec.providerID == Some("latitude://" + server.id)
            && |p.status.addresses| == |server.ips| + (if server.hostname == "" then 0 else 1)
            && (forall k :: 0 <= k < |server.ips| ==> p.status.addresses[k] == Address(ExternalIP, server.ips[k]))
            && (server.hostname != "" ==> p.status.addresses[|server.ips|] == Address(HostName, server.hostname))
            && i < |s.log| && Ran(s.log[i], u, server)
  {
    AlwaysSettled(actions);
    var s := Execute(actions).value;
    assert Settled(s.log, u, s.objects[u]);
    i, server :| 0 <= i < |s.log| && Ran(s.log[i], u, server) && server.id == s.objects[u].status.serverID &&
                 s.objects[u].status.addresses == AddressesOf(server);
  }
}
