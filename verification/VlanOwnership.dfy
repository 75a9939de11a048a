/** Which VLAN belongs to which cluster, and what its VID is. */
module VlanOwnership {
  import opened Prelude
  import opened Text
  import opened Api
  import opened ClusterFlow
  import opened ClusterSteps
  import opened ClusterFleet
  import opened ClusterInvariant

  /** The VLAN in a cluster's status: the one it was told to use, or one with its own description, and with its VID. */
  ghost predicate Good(issued: map<string, Record>, c: Cluster) {
    && (c.status.vlanVID.Some? ==> c.status.vlanID.Some?)
    && (c.status.vlanID.Some? ==>
          var id := c.status.vlanID.value;
          && (c.status.vlanVID.Some? ==> id in issued && issued[id].vid == c.status.vlanVID.value)
          && c.spec.vlan.Some?
          && (if UsesExisting(c) then Some(id) == c.spec.vlan.value.existing
              else id in issued && issued[id].description == Description(c)))
  }

  ghost predicate AllGood(s: State) {
    && (forall u :: u in s.clusters ==> Good(s.issued, s.clusters[u]))
    && (s.active.Some? && HasMemory(s.active.value.run) ==> Good(s.issued, s.active.value.run.c))
  }

  lemma GoodGrows(issued: map<string, Record>, issued': map<string, Record>, c: Cluster)
    requires Good(issued, c) && forall id :: id in issued ==> id in issued' && issued'[id] == issued[id]
    ensures Good(issued', c)
  {}

  /** A VLAN that was found under the description is listed under it. */
  lemma {:induction false} FoundIsListed(vlans: seq<Vlan>, description: string) returns (i: nat)
    requires FindVlan(vlans, description).Some?
    ensures i < |vlans| && vlans[i] == FindVlan(vlans, description).value && vlans[i].description == description
  {
    if vlans[0].description == description {
      i := 0;
    } else {
      i := FoundIsListed(vlans[1..], description);
      i := i + 1;
    }
  }

  lemma {:induction false} NotFoundIsUnlisted(vlans: seq<Vlan>, description: string)
    requires FindVlan(vlans, description).None?
    ensures forall i :: 0 <= i < |vlans| ==> vlans[i].description != description
  {
    if vlans != [] {
      NotFoundIsUnlisted(vlans[1..], description);
      assert forall i :: 0 < i < |vlans| ==> vlans[i] == vlans[1..][i - 1];
    }
  }

  /** An adopted VLAN was listed, or is the one just made. */
  lemma AdoptedIsIssued(s: State, reply: Reply, side: Option<Vlan>, run': Run)
    requires Sound(s) && Answered(s, reply, side, run') && Adopted(s.active.value.run, reply).Some?
    ensures var run, t := s.active.value.run, Advance(s, reply, side, run'); var v := Adopted(run, reply).value;
            v.id in t.issued && t.issued[v.id] == RecordOf(v) && v.description == run.request.description
  {
    var run := s.active.value.run;
    if run.Listing? {
      var i := FoundIsListed(reply.vlans.value, run.request.description);
    } else {
      MadeIsFresh(s, reply, side, run');
    }
  }

  /** The ids behind an answered call: the old ones are kept, and an adopted or verified VLAN is among them. */
  lemma IssuedAdvance(s: State, reply: Reply, side: Option<Vlan>, run': Run)
    requires Sound(s) && Answered(s, reply, side, run')
    ensures var run, t := s.active.value.run, Advance(s, reply, side, run');
            && (forall id :: id in s.issued ==> id in t.issued && t.issued[id] == s.issued[id])
            && (Adopted(run, reply).Some? ==>
                  var v := Adopted(run, reply).value;
                  v.id in t.issued && t.issued[v.id] == RecordOf(v) && v.description == run.request.description)
            && (Verified(run, reply).Some? ==> run.id in t.issued && t.issued[run.id].vid == Verified(run, reply).value)
  {
    var run := s.active.value.run;
    if Adopted(run, reply).Some? {
      AdoptedIsIssued(s, reply, side, run');
    }
    if Created(Pending(run), reply, side).Some? {
      MadeIsFresh(s, reply, side, run');
    }
  }

  lemma MemoryGood(issued: map<string, Record>, run: Run, reply: Reply, run': Run)
    requires !run.Finished? && Shape(run) && Fits(Pending(run), reply) && Change(run, reply, run')
    requires HasMemory(run) && HasMemory(run') && Good(issued, run.c)
    requires Adopted(run, reply).Some? ==>
               var v := Adopted(run, reply).value;
               v.id in issued && issued[v.id] == RecordOf(v) && v.description == run.request.description
    requires Verified(run, reply).Some? ==> run.id in issued && issued[run.id].vid == Verified(run, reply).value
    ensures Good(issued, run'.c)
  {}

  /** A patch of a good memory makes a good object. */
  lemma PatchedGood(issued: map<string, Record>, run: Run, p: Cluster, reply: Reply)
    requires !run.Finished? && Fits(Pending(run), reply) && Good(issued, p)
    requires HasMemory(run) ==> Good(issued, run.c) && BornAs(p, run.c)
    ensures Good(issued, Stored(run, p, reply))
  {}

  lemma StoredGood(s: State, reply: Reply, side: Option<Vlan>, run': Run, u: Uid)
    requires s.active.Some? && !s.active.value.run.Finished? && Fits(Pending(s.active.value.run), reply)
    requires Sound(s) && AllGood(s) && u in s.clusters
    requires var t := Advance(s, reply, side, run');
             forall id :: id in s.issued ==> id in t.issued && t.issued[id] == s.issued[id]
    ensures var t := Advance(s, reply, side, run'); u in t.clusters && Good(t.issued, t.clusters[u])
  {
    var t := Advance(s, reply, side, run');
    ClustersAdvance(s, reply, side, run');
    var a := s.active.value;
    assert BornAs(s.born[u], s.clusters[u]);
    if u == a.uid {
      PatchedGood(s.issued, a.run, s.clusters[u], reply);
    }
    GoodGrows(s.issued, t.issued, t.clusters[u]);
  }

  lemma MemoryGoodAdvance(s: State, reply: Reply, side: Option<Vlan>, run': Run)
    requires Sound(s) && AllGood(s) && Answered(s, reply, side, run') && HasMemory(run')
    ensures Good(Advance(s, reply, side, run').issued, run'.c)
  {
    var a, t := s.active.value, Advance(s, reply, side, run');
    IssuedAdvance(s, reply, side, run');
    if a.run.Reading? {
      GoodGrows(s.issued, t.issued, run'.c);
    } else {
      GoodGrows(s.issued, t.issued, a.run.c);
      MemoryGood(t.issued, a.run, reply, run');
    }
  }

  lemma GoodAdvance(s: State, reply: Reply, side: Option<Vlan>, run': Run)
    requires Sound(s) && AllGood(s) && Answered(s, reply, side, run')
    ensures AllGood(Advance(s, reply, side, run'))
  {
    var t := Advance(s, reply, side, run');
    IssuedAdvance(s, reply, side, run');
    forall u | u in t.clusters ensures Good(t.issued, t.clusters[u]) {
      ClustersAdvance(s, reply, side, run');
      StoredGood(s, reply, side, run', u);
    }
    if HasMemory(run') {
      MemoryGoodAdvance(s, reply, side, run');
    }
  }

  lemma GoodMeanwhile(s: State, a: Action)
    requires AllGood(s) && Legal(s, a) && !a.Answer?
    ensures AllGood(Step(s, a))
  {
    var t := Step(s, a);
    forall u | u in t.clusters && u in s.clusters ensures Good(t.issued, t.clusters[u]) {
      GoodGrows(s.issued, t.issued, s.clusters[u]);
    }
  }

  lemma GoodStep(s: State, a: Action)
    requires Sound(s) && AllGood(s) && Legal(s, a)
    ensures AllGood(Step(s, a))
  {
    if a.Answer? {
      var run' := AnswerAdvances(s, a);
      GoodAdvance(s, a.reply, a.side, run');
    } else {
      GoodMeanwhile(s, a);
    }
  }

  lemma {:induction false} AlwaysGood(actions: seq<Action>)
    requires Execute(actions).Some?
    ensures AllGood(Execute(actions).value)
  {
    if actions != [] {
      var n := |actions| - 1;
      AlwaysSound(actions[..n]);
      AlwaysGood(actions[..n]);
      GoodStep(Execute(actions[..n]).value, actions[n]);
    }
  }

  /**
   * In every run, across reuse, re-verification, loss and re-creation: a status with a VID has a VLAN id, and the VID
   * is that VLAN's.
   */
  lemma VidMatchesVlan(actions: seq<Action>, u: Uid)
    requires Execute(actions).Some? && u in Execute(actions).value.clusters
    requires Execute(actions).value.clusters[u].status.vlanVID.Some?
    ensures var s := Execute(actions).value; var c := s.clusters[u].status;
            c.vlanID.Some? && c.vlanID.value in s.issued && s.issued[c.vlanID.value].vid == c.vlanVID.value
  {
    AlwaysGood(actions);
    assert Good(Execute(actions).value.issued, Execute(actions).value.clusters[u]);
  }

  // ---- who creates and deletes ----

  /** Only clusters with a VLAN of their own create VLANs, under their description, and delete them, if it is theirs. */
  ghost predicate Proper(s: State, e: Event) {
    e.uid in s.born && OwnsVlan(s.born[e.uid]) &&
    match e
    case Made(u, id) => id in s.issued && s.issued[id].description == Description(s.born[u])
    case Removed(u, id) => id in s.issued && s.issued[id].description == Description(s.born[u])
    case ListFailed(u, description) => description == Description(s.born[u])
  }

  ghost predicate AllProper(s: State) {
    forall i :: 0 <= i < |s.log| ==> Proper(s, s.log[i])
  }

  /** The new events of an answer. */
  lemma CreationIsProper(s: State, reply: Reply, side: Option<Vlan>, run': Run)
    requires Sound(s) && Answered(s, reply, side, run')
    requires Created(Pending(s.active.value.run), reply, side).Some?
    ensures var a, t := s.active.value, Advance(s, reply, side, run');
            Proper(t, Made(a.uid, Created(Pending(a.run), reply, side).value.id))
  {
    MadeIsFresh(s, reply, side, run');
  }

  lemma RemovalIsProper(s: State, t: State)
    requires Sound(s) && AllGood(s) && s.active.Some? && s.active.value.run.Removing?
    requires t.born == s.born && forall id :: id in s.issued ==> id in t.issued && t.issued[id] == s.issued[id]
    ensures Proper(t, Removed(s.active.value.uid, s.active.value.run.id))
  {}

  lemma FailedListIsProper(s: State, t: State)
    requires Sound(s) && s.active.Some? && s.active.value.run.Listing? && t.born == s.born
    ensures Proper(t, ListFailed(s.active.value.uid, s.active.value.run.request.description))
  {}

  /** These are all events that an answer can add. */
  lemma EachEventIsProper(t: State, uid: Uid, run: Run, reply: Reply, side: Option<Vlan>)
    requires !run.Finished? && Fits(Pending(run), reply)
    requires var made := Created(Pending(run), reply, side); made.Some? ==> Proper(t, Made(uid, made.value.id))
    requires run.Removing? ==> Proper(t, Removed(uid, run.id))
    requires run.Listing? ==> Proper(t, ListFailed(uid, run.request.description))
    ensures forall e :: e in EventsOf(uid, run, reply, side) ==> Proper(t, e)
  {}

  lemma NewEventsAreProper(s: State, reply: Reply, side: Option<Vlan>, run': Run)
    requires Sound(s) && AllGood(s) && Answered(s, reply, side, run')
    ensures var a, t := s.active.value, Advance(s, reply, side, run');
            forall e :: e in EventsOf(a.uid, a.run, reply, side) ==> Proper(t, e)
  {
    var run, t := s.active.value.run, Advance(s, reply, side, run');
    if Created(Pending(run), reply, side).Some? {
      CreationIsProper(s, reply, side, run');
    }
    if run.Removing? {
      RemovalIsProper(s, t);
    }
    if run.Listing? {
      FailedListIsProper(s, t);
    }
    EachEventIsProper(t, s.active.value.uid, run, reply, side);
  }

  lemma ProperGrows(s: State, t: State, e: Event)
    requires Proper(s, e)
    requires forall id :: id in s.issued ==> id in t.issued && t.issued[id] == s.issued[id]
    requires forall u :: u in s.born ==> u in t.born && t.born[u] == s.born[u]
    ensures Proper(t, e)
  {}

  lemma ProperAdvance(s: State, reply: Reply, side: Option<Vlan>, run': Run)
    requires Sound(s) && AllGood(s) && AllProper(s) && Answered(s, reply, side, run')
    ensures AllProper(Advance(s, reply, side, run'))
  {
    var t := Advance(s, reply, side, run');
    IssuedAdvance(s, reply, side, run');
    NewEventsAreProper(s, reply, side, run');
    forall i | 0 <= i < |t.log| ensures Proper(t, t.log[i]) {
      if i < |s.log| {
        ProperGrows(s, t, s.log[i]);
      }
    }
  }

  lemma ProperMeanwhile(s: State, a: Action)
    requires ClustersSound(s) && AllProper(s) && Legal(s, a) && !a.Answer?
    ensures AllProper(Step(s, a))
  {
    var t := Step(s, a);
    forall i | 0 <= i < |t.log| ensures Proper(t, t.log[i]) {
      ProperGrows(s, t, s.log[i]);
    }
  }

  lemma ProperStep(s: State, a: Action)
    requires Sound(s) && AllGood(s) && AllProper(s) && Legal(s, a)
    ensures AllProper(Step(s, a))
  {
    if a.Answer? {
      var run' := AnswerAdvances(s, a);
      ProperAdvance(s, a.reply, a.side, run');
    } else {
      ProperMeanwhile(s, a);
    }
  }

  lemma {:induction false} AlwaysProper(actions: seq<Action>)
    requires Execute(actions).Some?
    ensures AllProper(Execute(actions).value)
  {
    if actions != [] {
      var n := |actions| - 1;
      AlwaysSound(actions[..n]);
      AlwaysGood(actions[..n]);
      AlwaysProper(actions[..n]);
      ProperStep(Execute(actions[..n]).value, actions[n]);
    }
  }

  /** In every run, a cluster that was told to use an existing VLAN never creates a VLAN, nor asks to delete one. */
  lemma ExistingVlansAreSafe(actions: seq<Action>, i: nat)
    requires Execute(actions).Some? && i < |Execute(actions).value.log|
    ensures var s := Execute(actions).value; var u := s.log[i].uid;
            u in s.born && s.born[u].spec.vlan.Some? && s.born[u].spec.vlan.value.existing.None?
  {
    AlwaysProper(actions);
    assert Proper(Execute(actions).value, Execute(actions).value.log[i]);
  }

  /** In every run, a cluster asks to delete no VLAN but one that carries its own description. */
  lemma OnlyOwnVlansAreDeleted(actions: seq<Action>, i: nat)
    requires Execute(actions).Some? && i < |Execute(actions).value.log| && Execute(actions).value.log[i].Removed?
    ensures var s := Execute(actions).value; var e := s.log[i];
            e.uid in s.born && OwnsVlan(s.born[e.uid]) &&
            e.id in s.issued && s.issued[e.id].description == Description(s.born[e.uid])
  {
    AlwaysProper(actions);
    assert Proper(Execute(actions).value, Execute(actions).value.log[i]);
  }

  // ---- when descriptions tell clusters apart ----

  /**
   * The name of d is that of c with more behind a dash, and c's subnet makes up for it. Names and subnets decide this,
   * before either cluster is applied.
   */
  predicate Shifts(c: Cluster, d: Cluster)
    requires OwnsVlan(c) && OwnsVlan(d)
  {
    && |c.name| < |d.name|
    && d.name[..|c.name| + 1] == c.name + "-"
    && c.spec.vlan.value.subnet == d.name[|c.name| + 1..] + "-" + d.spec.vlan.value.subnet
  }

  lemma LongerNameShifts(a: string, s: string, b: string, t: string)
    requires |a| < |b|
    ensures a + "-" + s == b + "-" + t <==> b[..|a| + 1] == a + "-" && s == b[|a| + 1..] + "-" + t
  {
    var x, y, rest := a + "-" + s, b + "-" + t, b[|a| + 1..] + "-" + t;
    assert b == b[..|a| + 1] + b[|a| + 1..];
    assert y == b[..|a| + 1] + rest;
    assert x[..|a| + 1] == a + "-" && x[|a| + 1..] == s;
    assert y[..|a| + 1] == b[..|a| + 1] && y[|a| + 1..] == rest;
  }

  lemma SameLengthNames(a: string, s: string, b: string, t: string)
    requires |a| == |b|
    ensures a + "-" + s == b + "-" + t <==> a == b && s == t
  {
    var x, y := a + "-" + s, b + "-" + t;
    assert x[..|a|] == a && x[|a| + 1..] == s;
    assert y[..|a|] == b && y[|a| + 1..] == t;
  }

  lemma DescriptionWithoutPrefix(c: Cluster)
    requires OwnsVlan(c)
    ensures Description(c)[..5] == "capl-" && Description(c)[5..] == c.name + "-" + c.spec.vlan.value.subnet
  {
    assert Description(c) == "capl-" + (c.name + "-" + c.spec.vlan.value.subnet);
  }

  /** Exactly when two clusters have one description: name and subnet agree, or the one shifts into the other. */
  lemma DescriptionsCollide(c: Cluster, d: Cluster)
    requires OwnsVlan(c) && OwnsVlan(d)
    ensures Description(c) == Description(d) <==>
            (c.name == d.name && c.spec.vlan.value.subnet == d.spec.vlan.value.subnet) || Shifts(c, d) || Shifts(d, c)
  {
    var s, t := c.spec.vlan.value.subnet, d.spec.vlan.value.subnet;
    DescriptionWithoutPrefix(c);
    DescriptionWithoutPrefix(d);
    assert Description(c) == Description(c)[..5] + Description(c)[5..];
    assert Description(d) == Description(d)[..5] + Description(d)[5..];
    if |c.name| < |d.name| {
      LongerNameShifts(c.name, s, d.name, t);
    } else if |d.name| < |c.name| {
      LongerNameShifts(d.name, t, c.name, s);
    } else {
      SameLengthNames(c.name, s, d.name, t);
    }
  }

  lemma ShiftsNeedDashes(c: Cluster, d: Cluster)
    requires OwnsVlan(c) && OwnsVlan(d) && Shifts(c, d)
    ensures '-' in c.spec.vlan.value.subnet
  {
    var x := d.name[|c.name| + 1..];
    assert (x + "-" + d.spec.vlan.value.subnet)[|x|] == '-';
  }

  /** So without dashes in the subnets, a description determines the cluster's name and its subnet. */
  lemma DescriptionsAreInjective(c: Cluster, d: Cluster)
    requires OwnsVlan(c) && OwnsVlan(d) && '-' !in c.spec.vlan.value.subnet && '-' !in d.spec.vlan.value.subnet
    ensures Description(c) == Description(d) <==> c.name == d.name && c.spec.vlan.value.subnet == d.spec.vlan.value.subnet
  {
    DescriptionsCollide(c, d);
    if Shifts(c, d) {
      ShiftsNeedDashes(c, d);
    }
    if Shifts(d, c) {
      ShiftsNeedDashes(d, c);
    }
  }

  /** With a dash in a subnet it does not: these two clusters of one namespace share their description. */
  lemma DashesConfuseDescriptions(c: Cluster)
    requires OwnsVlan(c)
    ensures var v := c.spec.vlan.value;
            var d, e := c.(name := "a", spec := c.spec.(vlan := Some(v.(subnet := "b-c")))),
                        c.(name := "a-b", spec := c.spec.(vlan := Some(v.(subnet := "c"))));
            d.name != e.name && Shifts(d, e) && Description(d) == Description(e)
  {
    var v := c.spec.vlan.value;
    var d := c.(name := "a", spec := c.spec.(vlan := Some(v.(subnet := "b-c"))));
    var e := c.(name := "a-b", spec := c.spec.(vlan := Some(v.(subnet := "c"))));
    assert e.name[..2] == "a" + "-" && e.name[2..] == "b" && "b" + "-" + "c" == "b-c";
    DescriptionsCollide(d, e);
  }

  /** In every run, two clusters of one namespace that own their VLANs have the same one only if one shifts into the other. */
  lemma VlansAreNotShared(actions: seq<Action>, u: Uid, v: Uid)
    requires Execute(actions).Some?
    requires var s := Execute(actions).value;
             && u in s.clusters && v in s.clusters && s.clusters[u].namespace == s.clusters[v].namespace
             && OwnsVlan(s.clusters[u]) && OwnsVlan(s.clusters[v])
             && !Shifts(s.clusters[u], s.clusters[v]) && !Shifts(s.clusters[v], s.clusters[u])
             && s.clusters[u].status.vlanID.Some? && s.clusters[u].status.vlanID == s.clusters[v].status.vlanID
    ensures u == v
  {
    AlwaysSound(actions);
    AlwaysGood(actions);
    var s := Execute(actions).value;
    assert Good(s.issued, s.clusters[u]) && Good(s.issued, s.clusters[v]);
    DescriptionsCollide(s.clusters[u], s.clusters[v]);
  }

  /** So with dash-free subnets they never have the same one. */
  lemma DashFreeVlansAreNotShared(actions: seq<Action>, u: Uid, v: Uid)
    requires Execute(actions).Some?
    requires var s := Execute(actions).value;
             && u in s.clusters && v in s.clusters && s.clusters[u].namespace == s.clusters[v].namespace
             && OwnsVlan(s.clusters[u]) && OwnsVlan(s.clusters[v])
             && '-' !in s.clusters[u].spec.vlan.value.subnet && '-' !in s.clusters[v].spec.vlan.value.subnet
             && s.clusters[u].status.vlanID.Some? && s.clusters[u].status.vlanID == s.clusters[v].status.vlanID
    ensures u == v
  {
    var s := Execute(actions).value;
    if Shifts(s.clusters[u], s.clusters[v]) {
      ShiftsNeedDashes(s.clusters[u], s.clusters[v]);
    }
    if Shifts(s.clusters[v], s.clusters[u]) {
      ShiftsNeedDashes(s.clusters[v], s.clusters[u]);
    }
    VlansAreNotShared(actions, u, v);
  }
}
