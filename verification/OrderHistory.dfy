/** Every order of a server, answered or not, uses user data that was made for the machine, and the one on record. */
module OrderHistory {
  import opened Prelude
  import opened Api
  import opened MachineFlow
  import opened MachineSteps
  import opened Fleet
  import opened FleetInvariant

  /** User data was made for u, with this id. */
  predicate Mints(e: Event, u: Uid, id: string) {
    e.Exchange? && e.uid == u && e.call.CreateUserData? && e.reply == Minted(id)
  }

  ghost predicate MintedIn(log: seq<Event>, u: Uid, id: string) {
    exists i :: 0 <= i < |log| && Mints(log[i], u, id)
  }

  /** A patch of u succeeded, and put this user data on record. */
  predicate Records(e: Event, u: Uid, id: string) {
    e.Exchange? && e.uid == u && e.call.Save? && e.reply.Accepted? && e.call.machine.status.userDataID == id != ""
  }

  /** CreateServer was called for u with this user data. */
  predicate Orders(e: Event, u: Uid, id: string) {
    e.Exchange? && e.uid == u && e.call.CreateServer? && e.call.spec.userData == id
  }

  /** The user data was made before, and agrees with everything that was put on record before. */
  ghost predicate Proper(log: seq<Event>, u: Uid, id: string) {
    MintedIn(log, u, id) && forall j, d :: 0 <= j < |log| && Records(log[j], u, d) ==> id == d
  }

  predicate HasData(run: Run) {
    run.SavingData? || run.Keying? || run.Ordering? || run.Creating?
  }

  /** User data in memory was made for the machine; and there is some when the machine is about to be ordered. */
  ghost predicate MemoryMinted(log: seq<Event>, a: Active) {
    HasMemory(a.run) && (HasData(a.run) || a.run.m.status.userDataID != "") ==>
      MintedIn(log, a.uid, a.run.m.status.userDataID)
  }

  ghost predicate ObjectMinted(log: seq<Event>, u: Uid, p: Machine) {
    (p.status.userDataID != "" ==> MintedIn(log, u, p.status.userDataID)) &&
    forall j, d :: 0 <= j < |log| && Records(log[j], u, d) ==> p.status.userDataID == d
  }

  ghost predicate LogKnown(s: State) {
    forall j :: 0 <= j < |s.log| ==> s.log[j].uid in s.known
  }

  ghost predicate AllMinted(s: State) {
    && (forall u :: u in s.objects ==> ObjectMinted(s.log, u, s.objects[u]))
    && (s.active.Some? ==> MemoryMinted(s.log, s.active.value))
  }

  ghost predicate OrdersProper(log: seq<Event>) {
    forall i, u, id :: 0 <= i < |log| && Orders(log[i], u, id) ==> Proper(log[..i], u, id)
  }

  lemma MintedGrows(log: seq<Event>, more: seq<Event>, u: Uid, id: string)
    requires MintedIn(log, u, id)
    ensures MintedIn(log + more, u, id)
  {
    var i :| 0 <= i < |log| && Mints(log[i], u, id);
    assert Mints((log + more)[i], u, id);
  }

  /** The memory behind an answer to a reconcile that had one: it made the user data, or keeps its own. */
  lemma MemoryKeeps(log: seq<Event>, a: Active, reply: Reply, run': Run)
    requires HasMemory(a.run) && Shape(a.run) && Fits(Pending(a.run), reply) && Change(a.run, reply, run') && HasMemory(run')
    requires MemoryMinted(log, a)
    ensures MemoryMinted(log + [Exchange(a.uid, Pending(a.run), reply)], Track(a, reply, run'))
  {
    var e := Exchange(a.uid, Pending(a.run), reply);
    if a.run.Uploading? && reply.Minted? {
      assert Mints((log + [e])[|log|], a.uid, run'.m.status.userDataID);
    } else if HasData(run') || run'.m.status.userDataID != "" {
      MintedGrows(log, [e], a.uid, run'.m.status.userDataID);
    }
  }

  lemma MemoryAdvance(s: State, reply: Reply, side: Option<string>, run': Run)
    requires Sound(s) && AllMinted(s) && Answered(s, reply, side, run') && HasMemory(run')
    ensures var a := s.active.value;
            MemoryMinted(s.log + [Exchange(a.uid, Pending(a.run), reply)], Track(a, reply, run'))
  {
    var a := s.active.value;
    if !a.run.Reading? {
      MemoryKeeps(s.log, a, reply, run');
    } else {
      assert ObjectMinted(s.log, a.uid, s.objects[a.uid]);
      if run'.m.status.userDataID != "" {
        MintedGrows(s.log, [Exchange(a.uid, Pending(a.run), reply)], a.uid, run'.m.status.userDataID);
      }
    }
  }

  /** A new answer records nothing but what is stored now. */
  lemma StoredMinted(log: seq<Event>, a: Active, p: Machine, reply: Reply)
    requires HasMemory(a.run) && Fits(Pending(a.run), reply) && Matches(a, p)
    requires ObjectMinted(log, a.uid, p) && MemoryMinted(log, a)
    ensures ObjectMinted(log + [Exchange(a.uid, Pending(a.run), reply)], a.uid, Stored(a, p, reply))
  {
    var e := Exchange(a.uid, Pending(a.run), reply);
    var q := Stored(a, p, reply);
    if q.status.userDataID != "" {
      MintedGrows(log, [e], a.uid, q.status.userDataID);
    }
    forall j, d | 0 <= j < |log + [e]| && Records((log + [e])[j], a.uid, d) ensures q.status.userDataID == d {
      if j < |log| {
        assert Records(log[j], a.uid, d);
      }
    }
  }

  /** Events that record nothing for u change nothing for it. */
  lemma OtherMinted(log: seq<Event>, more: seq<Event>, u: Uid, p: Machine)
    requires ObjectMinted(log, u, p) && forall k, d :: 0 <= k < |more| ==> !Records(more[k], u, d)
    ensures ObjectMinted(log + more, u, p)
  {
    if p.status.userDataID != "" {
      MintedGrows(log, more, u, p.status.userDataID);
    }
    assert forall j :: |log| <= j < |log + more| ==> (log + more)[j] == more[j - |log|];
    forall j, d | 0 <= j < |log + more| && Records((log + more)[j], u, d) ensures p.status.userDataID == d {
      if j < |log| {
        assert Records(log[j], u, d);
      }
    }
  }

  lemma ObjectAdvance(s: State, reply: Reply, side: Option<string>, run': Run, u: Uid)
    requires Sound(s) && AllMinted(s) && Answered(s, reply, side, run') && u in s.objects
    ensures var t := Advance(s, reply, side, run'); u in t.objects && ObjectMinted(t.log, u, t.objects[u])
  {
    var a, t := s.active.value, Advance(s, reply, side, run');
    var e := Exchange(a.uid, Pending(a.run), reply);
    var rest := t.log[|s.log| + 1..];
    ObjectsAdvance(s, reply, side, run');
    if u == a.uid && HasMemory(a.run) {
      StoredMinted(s.log, a, s.objects[u], reply);
    } else {
      OtherMinted(s.log, [e], u, s.objects[u]);
    }
    OtherMinted(s.log + [e], rest, u, t.objects[u]);
    assert s.log + [e] + rest == t.log;
  }

  /** The order that is being answered is proper. */
  lemma OrderIsProper(s: State, reply: Reply, side: Option<string>, run': Run)
    requires Sound(s) && AllMinted(s) && Answered(s, reply, side, run') && s.active.value.run.Creating?
    ensures Proper(s.log, s.active.value.uid, s.active.value.run.spec.userData)
  {
    var a := s.active.value;
    assert ObjectMinted(s.log, a.uid, s.objects[a.uid]);
  }

  lemma MintedAdvance(s: State, reply: Reply, side: Option<string>, run': Run)
    requires Sound(s) && AllMinted(s) && Answered(s, reply, side, run')
    ensures AllMinted(Advance(s, reply, side, run'))
  {
    var t := Advance(s, reply, side, run');
    forall u | u in t.objects ensures ObjectMinted(t.log, u, t.objects[u]) {
      ObjectsAdvance(s, reply, side, run');
      ObjectAdvance(s, reply, side, run', u);
    }
    if !run'.Finished? {
      MemoryAdvance(s, reply, side, run');
    }
  }

  /** A history stays proper if what is added begins with a proper event, and orders nothing more. */
  lemma OrdersGrow(log: seq<Event>, e: Event, rest: seq<Event>)
    requires OrdersProper(log)
    requires forall u, id :: Orders(e, u, id) ==> Proper(log, u, id)
    requires forall k :: 0 <= k < |rest| ==> rest[k].Closed?
    ensures OrdersProper(log + [e] + rest)
  {
    var all := log + [e] + rest;
    assert forall k :: |log| < k < |all| ==> all[k] == rest[k - |log| - 1];
    forall i, u, id | 0 <= i < |all| && Orders(all[i], u, id) ensures Proper(all[..i], u, id) {
      if i < |log| {
        assert all[..i] == log[..i] && all[i] == log[i];
      } else {
        assert all[..|log|] == log;
      }
    }
  }

  /** What the history gains: the answer, and perhaps the end of the reconcile. */
  lemma AnswerLog(s: State, reply: Reply, side: Option<string>, run': Run) returns (rest: seq<Event>)
    requires s.active.Some? && !s.active.value.run.Finished? && Fits(Pending(s.active.value.run), reply)
    ensures var a := s.active.value;
            Advance(s, reply, side, run').log == s.log + [Exchange(a.uid, Pending(a.run), reply)] + rest
    ensures forall k :: 0 <= k < |rest| ==> rest[k].Closed?
  {
    var a, b := s.active.value, Track(s.active.value, reply, run');
    rest := if run'.Finished? then [Ending(b)] else [];
  }

  lemma OrdersAdvance(s: State, reply: Reply, side: Option<string>, run': Run)
    requires s.active.Some? && !s.active.value.run.Finished? && Fits(Pending(s.active.value.run), reply)
    requires OrdersProper(s.log)
    requires var a := s.active.value; a.run.Creating? ==> Proper(s.log, a.uid, a.run.spec.userData)
    ensures OrdersProper(Advance(s, reply, side, run').log)
  {
    var a := s.active.value;
    var rest := AnswerLog(s, reply, side, run');
    OrdersGrow(s.log, Exchange(a.uid, Pending(a.run), reply), rest);
  }

  lemma MintedMeanwhile(s: State, a: Action)
    requires ObjectsSound(s) && LogKnown(s) && AllMinted(s) && OrdersProper(s.log) && Legal(s, a) && !a.Answer?
    ensures AllMinted(Step(s, a)) && OrdersProper(Step(s, a).log)
  {
    var t := Step(s, a);
    var more := t.log[|s.log|..];
    assert t.log == s.log + more;
    forall u | u in t.objects ensures ObjectMinted(t.log, u, t.objects[u]) {
      if u in s.objects {
        OtherMinted(s.log, more, u, t.objects[u]);
      }
    }
    forall i, u, id | 0 <= i < |t.log| && Orders(t.log[i], u, id) ensures Proper(t.log[..i], u, id) {
      assert t.log[..i] == s.log[..i] && t.log[i] == s.log[i];
    }
  }

  lemma LogKnownStep(s: State, a: Action)
    requires Sound(s) && LogKnown(s) && Legal(s, a)
    ensures LogKnown(Step(s, a))
  {
    var t := Step(s, a);
    forall j | 0 <= j < |t.log| ensures t.log[j].uid in t.known {
      if j < |s.log| {
        assert t.log[j] == s.log[j];
      }
    }
  }

  lemma MintedStep(s: State, a: Action)
    requires Sound(s) && LogKnown(s) && AllMinted(s) && OrdersProper(s.log) && Legal(s, a)
    ensures AllMinted(Step(s, a)) && OrdersProper(Step(s, a).log)
  {
    if a.Answer? {
      var run' := AnswerAdvances(s, a);
      MintedAdvance(s, a.reply, a.side, run');
      if s.active.value.run.Creating? {
        OrderIsProper(s, a.reply, a.side, run');
      }
      OrdersAdvance(s, a.reply, a.side, run');
    } else {
      MintedMeanwhile(s, a);
    }
  }

  lemma {:induction false} AlwaysMinted(actions: seq<Action>)
    requires Execute(actions).Some?
    ensures LogKnown(Execute(actions).value) && AllMinted(Execute(actions).value) && OrdersProper(Execute(actions).value.log)
  {
    if actions != [] {
      var n := |actions| - 1;
      AlwaysSound(actions[..n]);
      AlwaysMinted(actions[..n]);
      LogKnownStep(Execute(actions[..n]).value, actions[n]);
      MintedStep(Execute(actions[..n]).value, actions[n]);
    }
  }

  /**
   * In every run, every CreateServer call, whatever its answer: its user data was made for that machine before, and it
   * is the one that any earlier successful patch of the machine put on record.
   */
  lemma OrdersUseRecordedData(actions: seq<Action>, i: nat, u: Uid, id: string) returns (m: nat)
    requires Execute(actions).Some?
    requires var log := Execute(actions).value.log; i < |log| && Orders(log[i], u, id)
    ensures var log := Execute(actions).value.log;
            && m < i && Mints(log[m], u, id)
            && forall j, d :: 0 <= j < i && Records(log[j], u, d) ==> id == d
  {
    AlwaysMinted(actions);
    var log := Execute(actions).value.log;
    assert Proper(log[..i], u, id);
    m :| 0 <= m < i && Mints(log[..i][m], u, id);
    forall j, d | 0 <= j < i && Records(log[j], u, d) ensures id == d {
      assert Records(log[..i][j], u, d);
    }
  }

  /** And at the moment of the call: it is the user data on record, whenever there is one. */
  lemma OrderMatchesRecord(actions: seq<Action>)
    requires Execute(actions).Some?
    requires var s := Execute(actions).value; s.active.Some? && s.active.value.run.Creating?
    ensures var s := Execute(actions).value; var a := s.active.value;
            && a.uid in s.objects
            && (s.objects[a.uid].status.userDataID != "" ==> a.run.spec.userData == s.objects[a.uid].status.userDataID)
  {
    AlwaysSound(actions);
  }
}
