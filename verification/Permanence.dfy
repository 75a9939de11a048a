/** What never changes back: Ready, Failed, and the recorded user data. */
module Permanence {
  import opened Prelude
  import opened Api
  import opened MachineFlow
  import opened MachineSteps
  import opened Fleet
  import opened FleetInvariant
  import opened Readiness

  /** What stays: Ready with its server, Failed, and a recorded user data. */
  predicate Final(p: Machine, q: Machine) {
    && (p.status.ready ==> q.status.ready && q.status.serverID == p.status.serverID)
    && (p.status.failureReason.Some? ==> q.status.failureReason.Some?)
    && (p.status.userDataID != "" ==> q.status.userDataID == p.status.userDataID)
  }

  lemma FinalStep(s: State, a: Action, u: Uid)
    requires Sound(s) && Legal(s, a) && u in s.objects && u in Step(s, a).objects
    ensures Final(s.objects[u], Step(s, a).objects[u])
  {
    if a.Answer? {
      var run' := AnswerAdvances(s, a);
      ObjectsAdvance(s, a.reply, a.side, run');
    }
  }

  lemma KnownStays(s: State, a: Action, u: Uid)
    requires Sound(s) && Legal(s, a) && u in s.known && u !in s.objects
    ensures u in Step(s, a).known && u !in Step(s, a).objects
  {}

  lemma {:induction false} AlwaysFinal(front: seq<Action>, back: seq<Action>, u: Uid)
    requires Execute(front + back).Some? && Execute(front).Some? && u in Execute(front).value.objects
    ensures var s := Execute(front + back).value;
            u in s.known && (u in s.objects ==> Final(Execute(front).value.objects[u], s.objects[u]))
  {
    AlwaysSound(front);
    if back == [] {
      assert front + back == front;
    } else {
      var all, n := front + back, |back| - 1;
      assert all[..|all| - 1] == front + back[..n] && all[|all| - 1] == back[n];
      AlwaysFinal(front, back[..n], u);
      AlwaysSound(front + back[..n]);
      var s := Execute(front + back[..n]).value;
      if u in s.objects {
        FinalAfter(s, back[n], u);
      } else {
        KnownStays(s, back[n], u);
      }
    }
  }

  lemma FinalAfter(s: State, a: Action, u: Uid)
    requires Sound(s) && Legal(s, a) && u in s.objects
    ensures u in Step(s, a).known && (u in Step(s, a).objects ==> Final(s.objects[u], Step(s, a).objects[u]))
  {
    if u in Step(s, a).objects {
      FinalStep(s, a, u);
    }
  }

  /** However a run continues, a machine that is Ready stays so with its server, and one that has failed stays failed. */
  lemma ReadyAndFailedAreFinal(front: seq<Action>, back: seq<Action>, u: Uid)
    requires Execute(front).Some? && Execute(front + back).Some?
    requires u in Execute(front).value.objects && u in Execute(front + back).value.objects
    ensures var p, q := Execute(front).value.objects[u], Execute(front + back).value.objects[u];
            (p.status.ready ==> q.status.ready && q.status.serverID == p.status.serverID && q.status.failureReason.None?) &&
            (p.status.failureReason.Some? ==> q.status.failureReason.Some? && !q.status.ready)
  {
    AlwaysFinal(front, back, u);
    AlwaysSettled(front + back);
    assert Settled(Execute(front + back).value.log, u, Execute(front + back).value.objects[u]);
  }

  /** However a run continues, the user data on record is never cleared or replaced. */
  lemma UserDataIsFinal(front: seq<Action>, back: seq<Action>, u: Uid)
    requires Execute(front).Some? && Execute(front + back).Some?
    requires u in Execute(front).value.objects && u in Execute(front + back).value.objects
    ensures var p, q := Execute(front).value.objects[u], Execute(front + back).value.objects[u];
            p.status.userDataID != "" ==> q.status.userDataID == p.status.userDataID
  {
    AlwaysFinal(front, back, u);
  }
}
