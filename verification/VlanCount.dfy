/** How many VLANs can carry one cluster's description: one, and one more for each failed list. */
module VlanCount {
  import opened Prelude
  import opened Text
  import opened Api
  import opened ClusterFlow
  import opened ClusterSteps
  import opened ClusterFleet
  import opened ClusterInvariant
  import VlanOwnership

  /** The live VLANs with a description. */
  ghost function Carriers(s: State, description: string): set<string> {
    set id | id in s.vlans && id in s.issued && s.issued[id].description == description
  }

  function Failures(log: seq<Event>, description: string): nat {
    if log == [] then 0
    else
      var n := |log| - 1;
      Failures(log[..n], description) + if log[n].ListFailed? && log[n].description == description then 1 else 0
  }

  lemma FailuresAppend(log: seq<Event>, e: Event, description: string)
    ensures Failures(log + [e], description) ==
            Failures(log, description) + if e.ListFailed? && e.description == description then 1 else 0
  {
    assert (log + [e])[..|log|] == log;
  }

  /** A description of the form that clusters use. */
  predicate Ours(description: string) {
    At(description, PREFIX, 0)
  }

  ghost predicate Few(s: State, description: string) {
    && |Carriers(s, description)| <= 1 + Failures(s.log, description)
    && (s.active.Some? && s.active.value.run.Creating? && s.active.value.run.request.description == description ==>
          |Carriers(s, description)| <= Failures(s.log, description))
  }

  /** A list that shows no VLAN under the description means that there is none. */
  lemma NoneListed(s: State, vlans: seq<Vlan>, description: string)
    requires ClustersSound(s) && ListsAll(s, vlans) && FindVlan(vlans, description).None?
    ensures Carriers(s, description) == {}
  {
    VlanOwnership.NotFoundIsUnlisted(vlans, description);
    forall id | id in s.vlans ensures s.issued[id].description != description {
      var i :| 0 <= i < |vlans| && vlans[i].id == id;
    }
  }

  lemma CarriersGrow(s: State, reply: Reply, side: Option<Vlan>, run': Run, description: string)
    requires Sound(s) && Answered(s, reply, side, run') && Created(Pending(s.active.value.run), reply, side).Some?
    ensures var t, made := Advance(s, reply, side, run'), Created(Pending(s.active.value.run), reply, side).value;
            s.active.value.run.Creating? && made.description == s.active.value.run.request.description &&
            Carriers(t, description) == Carriers(s, description) + if made.description == description then {made.id} else {}
  {
    MadeIsFresh(s, reply, side, run');
  }

  lemma CarriersAdvance(s: State, reply: Reply, side: Option<Vlan>, run': Run, description: string)
    requires Sound(s) && Answered(s, reply, side, run')
    ensures var run := s.active.value.run; var made := Created(Pending(run), reply, side);
            |Carriers(Advance(s, reply, side, run'), description)| <=
            |Carriers(s, description)| + if made.Some? && run.Creating? && run.request.description == description then 1 else 0
  {
    var t, made := Advance(s, reply, side, run'), Created(Pending(s.active.value.run), reply, side);
    if made.Some? {
      CarriersGrow(s, reply, side, run', description);
    } else {
      SubsetIsSmaller(Carriers(t, description), Carriers(s, description));
    }
  }

  lemma FailuresAdvance(s: State, reply: Reply, side: Option<Vlan>, run': Run, description: string)
    requires s.active.Some? && !s.active.value.run.Finished? && Fits(Pending(s.active.value.run), reply)
    ensures var run := s.active.value.run;
            Failures(Advance(s, reply, side, run').log, description) == Failures(s.log, description) +
              if run.Listing? && reply.vlans.Err? && run.request.description == description then 1 else 0
  {
    var a := s.active.value;
    var events := EventsOf(a.uid, a.run, reply, side);
    if events == [] {
      assert s.log + events == s.log;
    } else {
      FailuresAppend(s.log, events[0], description);
      assert s.log + events == s.log + [events[0]];
    }
  }

  lemma FewAdvance(s: State, reply: Reply, side: Option<Vlan>, run': Run, description: string)
    requires Sound(s) && Few(s, description) && Answered(s, reply, side, run')
    ensures Few(Advance(s, reply, side, run'), description)
  {
    CarriersAdvance(s, reply, side, run', description);
    FailuresAdvance(s, reply, side, run', description);
    if run'.Creating? && reply.vlans.Ok? {
      NoneListed(s, reply.vlans.value, run'.request.description);
    }
  }

  lemma FewStep(s: State, a: Action, description: string)
    requires Sound(s) && Few(s, description) && Legal(s, a) && Ours(description)
    ensures Few(Step(s, a), description)
  {
    if a.Answer? {
      var run' := AnswerAdvances(s, a);
      FewAdvance(s, a.reply, a.side, run', description);
    } else {
      SubsetIsSmaller(Carriers(Step(s, a), description), Carriers(s, description));
    }
  }

  lemma {:induction false} AlwaysFew(actions: seq<Action>, description: string)
    requires Execute(actions).Some? && Ours(description)
    ensures Few(Execute(actions).value, description)
  {
    if actions == [] {
      assert Carriers(EMPTY, description) == {};
    } else {
      var n := |actions| - 1;
      AlwaysSound(actions[..n]);
      AlwaysFew(actions[..n], description);
      FewStep(Execute(actions[..n]).value, actions[n], description);
    }
  }

  lemma DescriptionIsOurs(c: Cluster)
    requires OwnsVlan(c)
    ensures Ours(Description(c))
  {
    assert Description(c)[0..5] == PREFIX;
  }

  /**
   * In every run, with GetVLAN failing, answers and patches lost and the process crashing at will, the live VLANs that
   * carry a cluster's description number at most one, plus one for each failed ListVLANs on behalf of that description.
   */
  lemma VlansAreBounded(actions: seq<Action>, u: Uid)
    requires Execute(actions).Some?
    requires u in Execute(actions).value.born && OwnsVlan(Execute(actions).value.born[u])
    ensures var s := Execute(actions).value; var d := Description(s.born[u]);
            |Carriers(s, d)| <= 1 + Failures(s.log, d)
  {
    var c := Execute(actions).value.born[u];
    DescriptionIsOurs(c);
    AlwaysFew(actions, Description(c));
  }

  /** So if every list succeeds, the cloud never holds two VLANs with one cluster's description. */
  lemma OneVlanPerDescription(actions: seq<Action>, u: Uid, x: string, y: string)
    requires Execute(actions).Some?
    requires u in Execute(actions).value.born && OwnsVlan(Execute(actions).value.born[u])
    requires var s := Execute(actions).value; var d := Description(s.born[u]);
             Failures(s.log, d) == 0 && x in Carriers(s, d) && y in Carriers(s, d)
    ensures x == y
  {
    VlansAreBounded(actions, u);
    var s := Execute(actions).value;
    if x != y {
      SubsetIsSmaller({x, y}, Carriers(s, Description(s.born[u])));
    }
  }
}
