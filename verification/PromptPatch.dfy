/** What is created is recorded at once: no call comes between a creation and the patch that persists its id. */
module PromptPatch {
  import opened Prelude
  import opened Api
  import opened MachineFlow
  import opened MachineSteps
  import opened Fleet
  import opened FleetInvariant

  /** A server, or user data, was created. */
  predicate Creates(e: Event) {
    e.Exchange? && (e.call.CreateServer? || e.call.CreateUserData?) && e.reply.Minted?
  }

  /** This object has the new id on record. */
  predicate Records(e: Event, m: Machine)
    requires Creates(e)
  {
    if e.call.CreateServer? then m.status.serverID == e.reply.id else m.status.userDataID == e.reply.id
  }

  /** The next event of a creation: the patch with the new id, by the same reconcile; or the crash of that reconcile. */
  predicate Follows(e: Event, next: Event) {
    Creates(e) ==>
      next.uid == e.uid && (next.Closed? || (next.Exchange? && next.call.Save? && Records(e, next.call.machine)))
  }

  /** A creation with which the history ends is still being recorded. */
  ghost predicate Open(s: State, e: Event) {
    Creates(e) ==>
      && s.active.Some? && s.active.value.uid == e.uid
      && (s.active.value.run.SavingServer? || s.active.value.run.SavingData?) && Records(e, s.active.value.run.m)
  }

  ghost predicate Prompt(s: State) {
    && (forall i :: 0 <= i < |s.log| - 1 ==> Follows(s.log[i], s.log[i + 1]))
    && (s.log != [] ==> Open(s, s.log[|s.log| - 1]))
  }

  /** A creation is followed by the answer to its patch. */
  lemma AnswerFollows(s: State, e: Event, reply: Reply)
    requires s.active.Some? && !s.active.value.run.Finished? && Open(s, e)
    ensures Follows(e, Exchange(s.active.value.uid, Pending(s.active.value.run), reply))
  {}

  /** A new creation is open, and the history ends with it. */
  lemma CreationIsOpen(a: Active, reply: Reply, run': Run)
    requires !a.run.Finished? && Fits(Pending(a.run), reply) && Change(a.run, reply, run')
    requires Creates(Exchange(a.uid, Pending(a.run), reply))
    ensures (run'.SavingServer? || run'.SavingData?) && Records(Exchange(a.uid, Pending(a.run), reply), run'.m)
  {}

  lemma PromptAdvance(s: State, reply: Reply, side: Option<string>, run': Run)
    requires s.active.Some? && !s.active.value.run.Finished? && Fits(Pending(s.active.value.run), reply)
    requires Prompt(s) && Change(s.active.value.run, reply, run')
    ensures Prompt(Advance(s, reply, side, run'))
  {
    var a, t := s.active.value, Advance(s, reply, side, run');
    var n, e := |s.log|, Exchange(a.uid, Pending(a.run), reply);
    assert t.log[n] == e;
    if n > 0 {
      AnswerFollows(s, s.log[n - 1], reply);
    }
    if Creates(e) {
      CreationIsOpen(a, reply, run');
    }
    forall i | 0 <= i < |t.log| - 1 ensures Follows(t.log[i], t.log[i + 1]) {
      if i < n - 1 {
        assert Follows(s.log[i], s.log[i + 1]);
      }
    }
  }

  lemma PromptStep(s: State, a: Action)
    requires Sound(s) && Prompt(s) && Legal(s, a)
    ensures Prompt(Step(s, a))
  {
    if a.Answer? {
      var run' := AnswerAdvances(s, a);
      PromptAdvance(s, a.reply, a.side, run');
    }
  }

  lemma {:induction false} AlwaysPrompt(actions: seq<Action>)
    requires Execute(actions).Some?
    ensures Prompt(Execute(actions).value)
  {
    if actions != [] {
      var n := |actions| - 1;
      AlwaysSound(actions[..n]);
      AlwaysPrompt(actions[..n]);
      PromptStep(Execute(actions[..n]).value, actions[n]);
    }
  }

  /**
   * In every run, the call right behind a successful CreateServer or CreateUserData is the patch that carries the new
   * id, unless the process crashes in between.
   */
  lemma CreationsArePatchedNext(actions: seq<Action>, i: nat)
    requires Execute(actions).Some?
    requires var log := Execute(actions).value.log; i + 1 < |log| && Creates(log[i])
    ensures var log := Execute(actions).value.log;
            log[i + 1].uid == log[i].uid &&
            (log[i + 1].Closed? ||
             (log[i + 1].Exchange? && log[i + 1].call.Save? && Records(log[i], log[i + 1].call.machine)))
  {
    AlwaysPrompt(actions);
    assert Follows(Execute(actions).value.log[i], Execute(actions).value.log[i + 1]);
  }
}
