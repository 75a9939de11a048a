/** The history of every reconcile of every run, read without its memory: each event follows from the answers before it. */
module MachineHistory {
  import opened Prelude
  import opened Text
  import opened Conditions
  import opened Api
  import opened UserData
  import opened MachineFlow
  import opened MachineSteps
  import opened Fleet
  import opened FleetInvariant
  import opened MachineLaws
  import SshKeys

  /** The object with a report on the instance. */
  function Stated(p: Machine, c: Claim, now: int): Machine {
    p.(status := p.status.(conditions := Put(p.status.conditions,
                                             Condition(InstanceReady, c.status, c.reason, c.message, p.generation, now),
                                             RewriteAlways)))
  }

  /** The object with the report, made at some time, or without one. */
  ghost predicate States(p: Machine, claim: Option<Claim>, m: Machine) {
    match claim
    case None => m == p
    case Some(c) => exists now :: m == Stated(p, c, now)
  }

  /** Where the conversation stands is what is expected. */
  ghost predicate Meets(step: Next, run: Run) {
    match step
    case Ask(call) => !run.Saving? && !run.Finished? && Pending(run) == call
    case Patch(p, claim, outcome) => run.Saving? && run.outcome == outcome && States(p, claim, run.m)
    case Close(outcome) => run == Finished(outcome)
  }

  /** A creation succeeded, so that the next patch is not the last one. */
  predicate Mints(t: Turn) {
    (t.call.CreateUserData? || t.call.CreateServer?) && t.reply.Minted?
  }

  /** The secret that holds the keys; its namespace defaults to the object's. */
  function Resolved(m: Machine, ref: SecretRef): SecretRef {
    SecretRef(if ref.namespace == "" then m.namespace else ref.namespace, ref.name)
  }

  /** The keys have been read last, if the object names a secret for them. */
  predicate Keyed(w: seq<Turn>)
    requires Opened(w)
  {
    match Object(w).spec.sshKeys
    case None => !Last(w).call.GetKeys?
    case Some(ref) =>
      Last(w).call == GetKeys(Resolved(Object(w), ref)) && KeyList(Last(w).call.ref, Last(w).reply.secret).Ok?
  }

  /** A new server has been recorded, or its patch has failed. */
  predicate Registered(w: seq<Turn>)
    requires Opened(w)
  {
    && |w| > 1 && Last(w).call.Save?
    && Last(Front(w)).call.CreateServer? && Last(Front(w)).reply == Minted(Object(w).status.serverID)
  }

  /** The order is put together: the placement has been read last, and the keys before that. */
  predicate Placed(w: seq<Turn>, spec: ServerSpec)
    requires Opened(w)
  {
    && |w| > 2 && Last(w).call.GetPlacement? && Keyed(Front(w)) && Object(Front(w)) == Object(w)
    && Order(Object(w), KeysRead(Front(w)), Last(w).reply.placement) == Ask(CreateServer(spec))
  }

  /** The cluster has been read behind a new server, and has this VLAN. */
  predicate Joins(w: seq<Turn>, vlan: string)
    requires Opened(w)
  {
    && |w| > 2 && Last(w).call.GetCluster? && Last(w).reply.cluster.Found? && Registered(Front(w))
    && Object(Front(w)) == Object(w)
    && Last(w).reply.cluster.value.spec.vlan.Some? && Last(w).reply.cluster.value.status.vlanID == Some(vlan)
  }

  /** The bootstrap secret and the cluster have been read. */
  predicate Gathered(w: seq<Turn>, data: UserData)
    requires Opened(w)
  {
    && |w| > 2 && Last(w).call.GetCluster? && !Last(w).reply.cluster.Missing?
    && Last(Front(w)).call.GetBootstrap? && Last(Front(w)).call.ref.namespace == Object(w).namespace
    && Raw(Last(Front(w)).reply.secret) == Some(Ok(data.raw)) && data.machine == Object(w).name
    && data.cluster == (if Last(w).reply.cluster.Found? then Some(Last(w).reply.cluster.value) else None)
  }

  /** What the conversation remembers is what the answers say. */
  ghost predicate Remembers(w: seq<Turn>, run: Run)
    requires Opened(w)
  {
    && (HasMemory(run) && !run.Saving? ==> run.m == Object(w))
    && (run.Checking? || run.Listing? || run.Placing? || run.Polling? ==>
          OwnerOf(w) == Some(run.owner) && !Provisioning(w))
    && (run.Owning? ==> |w| == 1)
    && (run.Checking? ==> Last(w).call.GetOwner?)
    && (run.Injecting? ==> |w| > 1 && Last(w).call.GetBootstrap? && Last(w).call.ref.namespace == run.m.namespace &&
                           Raw(Last(w).reply.secret) == Some(Ok(run.raw)))
    && (run.Injecting? || run.Uploading? || run.SavingData? || run.Keying? || run.Ordering? ==> Provisioning(w))
    && (run.Keying? ==> run.m.spec.sshKeys.Some? && run.ref == Resolved(run.m, run.m.spec.sshKeys.value))
    && (run.Ordering? ==> |w| > 1 && KeysRead(w) == run.keys && Keyed(w))
    && (run.SavingData? || run.SavingServer? <==> Mints(Last(w)))
    && (run.SavingData? ==> Last(w).call.CreateUserData?)
    && (run.SavingServer? ==> Last(w).call.CreateServer?)
    && (run.AttachReading? ==> Registered(w))
    && (run.Attaching? ==> Joins(w, run.vlan))
    && (run.Creating? ==> Placed(w, run.spec))
    && (run.Uploading? ==> Gathered(w, run.data))
  }

  ghost predicate Recalls(w: seq<Turn>, run: Run) {
    && (w == [] <==> run.Reading?)
    && (w != [] ==> w[0].call.GetMachine?)
    && (HasMemory(run) ==> Opened(w) && Remembers(w, run))
    && Meets(Expected(w), run)
  }

  /** One more turn. */
  lemma Extends(w: seq<Turn>, t: Turn)
    ensures var v := w + [t];
            Last(v) == t && Front(v) == w && (Provisioning(v) <==> t.call.GetBootstrap? || Provisioning(w))
    ensures Opened(w) ==>
              Opened(w + [t]) && Object(w + [t]) == Effect(Object(w), t) && (|w| > 1 ==> OwnerOf(w + [t]) == OwnerOf(w))
  {
    assert (w + [t])[..|w + [t]| - 1] == w;
  }

  ghost predicate GoesOn(w: seq<Turn>, run: Run, reply: Reply, now: int)
    requires !run.Finished? && Fits(Pending(run), reply)
  {
    var t: Turn := Exchanged(Pending(run), reply);
    Recalls(w + [t], Resume(run, reply, now))
  }

  /** A report on the instance, made now. */
  lemma Claims(p: Machine, c: Claim, now: int)
    ensures States(p, Some(c), Report(p, c.status, c.reason, c.message, now))
  {
    assert Report(p, c.status, c.reason, c.message, now) == Stated(p, c, now);
  }

  lemma WaitMeets(m: Machine, now: int)
    ensures Meets(Wait(m), Conclude(m, Waiting, now)) && Conclude(m, Waiting, now).Saving?
  {
    Claims(m, Claim(ConditionFalse, InstanceNotReady, "Server is being provisioned"), now);
  }

  lemma FailMeets(m: Machine, error: string, now: int)
    ensures Meets(Fail(m, error), Conclude(m, Broken(error), now)) && Conclude(m, Broken(error), now).Saving?
  {
    var c := Claim(ConditionFalse, InstanceProvisionFailed, error);
    Claims(m, c, now);
    Claims(MarkFailed(m, error), c, now);
    assert IsPermanent(error) <==> Contains(error, PERMANENT_CODES[0]) || Contains(error, PERMANENT_CODES[1]);
  }

  lemma SucceedMeets(m: Machine, server: Server, now: int)
    ensures Meets(Succeed(m, server), Conclude(m, Running(server), now)) && Conclude(m, Running(server), now).Saving?
  {
    assert Succeed(m, server).machine == MarkReady(m, server);
    Claims(MarkReady(m, server), Claim(ConditionTrue, InstanceIsReady, "Instance is ready"), now);
  }

  lemma FoldSpells(status: string, word: string)
    requires forall i :: 0 <= i < |word| ==> 'a' <= word[i] <= 'z'
    ensures EqualFold(status, word) <==> Spells(status, word)
  {
    if |status| == |word| {
      forall i | 0 <= i < |word|
        ensures Lower(status[i]) == Lower(word[i]) <==> status[i] == word[i] || status[i] as int == word[i] as int - 32
      {}
    }
  }

  lemma UpMeansRunning(status: string)
    ensures IsUp(status) <==> MeansRunning(status)
  {
    FoldSpells(status, "on");
    FoldSpells(status, "active");
    FoldSpells(status, "running");
  }

  lemma FailureMeans(siblings: seq<Sibling>)
    ensures SawFailure(siblings) <==> ControlPlaneFailed(siblings)
  {
    if SawFailure(siblings) {
      var i :| 0 <= i < |siblings| && FailedControlPlane(siblings[i]);
    }
  }

  lemma PlacementMeans(m: Machine, p: Placement)
    ensures Project(p) == ProjectID(p) && SiteFrom(p) == Site(p) && Lacks(m, p) == SpecErrors(m, p)
    ensures SpecComplete(m, p) <==> Lacks(m, p) == []
  {
    assert |Lacks(m, p)| == |Demand(m.spec.os, "")| + |Demand(m.spec.plan, "")| + |Demand(Project(p), "")|
                            + |Demand(SiteFrom(p), "")|;
  }

  lemma KeysMean(ref: SecretRef, secret: Read<map<string, string>>)
    ensures KeyList(ref, secret) == KeysIn(ref, secret)
  {
    if secret.Found? {
      SshKeys.NamesInOrder(secret.value);
    }
  }

  // ---- one answer ----

  /** At the deferred patch there is nothing to remember. */
  lemma EndRecalls(v: seq<Turn>, run: Run)
    requires Opened(v) && !Mints(Last(v)) && run.Saving? && Meets(Expected(v), run)
    ensures Recalls(v, run)
  {}

  /** There is nothing to do but to look again. */
  lemma WaitRecalls(v: seq<Turn>, m: Machine, now: int)
    requires Opened(v) && !Mints(Last(v)) && Expected(v) == Wait(m)
    ensures Recalls(v, Conclude(m, Waiting, now))
  {
    WaitMeets(m, now);
    EndRecalls(v, Conclude(m, Waiting, now));
  }

  lemma FailRecalls(v: seq<Turn>, m: Machine, error: string, now: int)
    requires Opened(v) && !Mints(Last(v)) && Expected(v) == Fail(m, error)
    ensures Recalls(v, Conclude(m, Broken(error), now))
  {
    FailMeets(m, error, now);
    EndRecalls(v, Conclude(m, Broken(error), now));
  }

  lemma ReadGoesOn(w: seq<Turn>, run: Run, reply: Reply, now: int)
    requires run.Reading? && Fits(Pending(run), reply) && Recalls(w, run)
    ensures GoesOn(w, run, reply, now)
  {
    Extends(w, Exchanged(Pending(run), reply));
  }

  lemma OwnerGoesOn(w: seq<Turn>, run: Run, reply: Reply, now: int)
    requires run.Owning? && Fits(Pending(run), reply) && Recalls(w, run)
    ensures GoesOn(w, run, reply, now)
  {
    Extends(w, Exchanged(Pending(run), reply));
  }

  lemma CheckGoesOn(w: seq<Turn>, run: Run, reply: Reply, now: int)
    requires run.Checking? && Fits(Pending(run), reply) && Recalls(w, run)
    ensures GoesOn(w, run, reply, now)
  {
    Extends(w, Exchanged(Pending(run), reply));
  }

  lemma ListGoesOn(w: seq<Turn>, run: Run, reply: Reply, now: int)
    requires run.Listing? && Fits(Pending(run), reply) && Recalls(w, run)
    ensures GoesOn(w, run, reply, now)
  {
    var v := w + [Exchanged(Pending(run), reply)];
    Extends(w, Exchanged(Pending(run), reply));
    assert Expected(v) == AfterSiblings(run.m, reply.siblings);
    if reply.siblings.Found? {
      FailureMeans(reply.siblings.value);
      if SawFailure(reply.siblings.value) {
        Claims(MarkFailed(run.m, "Control plane provisioning failed, cannot provision worker nodes"),
               Claim(ConditionFalse, InstanceProvisionFailed, "Control plane failed"), now);
        EndRecalls(v, Resume(run, reply, now));
      }
    }
  }

  lemma ProvisionMeets(w: seq<Turn>, m: Machine, owner: Owner, now: int)
    requires Opened(w) && m == Object(w) && OwnerOf(w) == Some(owner)
    requires !Mints(Last(w)) && Expected(w) == Supply(m, OwnerOf(w))
    ensures Recalls(w, EnterBootstrap(m, owner, now))
  {
    WaitMeets(m, now);
  }

  lemma PlaceGoesOn(w: seq<Turn>, run: Run, reply: Reply, now: int)
    requires run.Placing? && Fits(Pending(run), reply) && Recalls(w, run)
    ensures GoesOn(w, run, reply, now)
  {
    var v, m, p := w + [Exchanged(Pending(run), reply)], run.m, reply.placement;
    Extends(w, Exchanged(Pending(run), reply));
    PlacementMeans(m, p);
    if Lacks(m, p) != [] {
      Claims(m, Claim(ConditionFalse, InstanceProvisionFailed, "validation failed: " + Join(Lacks(m, p), ", ")), now);
    } else if m.status.serverID == "" {
      ProvisionMeets(v, m, run.owner, now);
    }
  }

  lemma PollGoesOn(w: seq<Turn>, run: Run, reply: Reply, now: int)
    requires run.Polling? && Fits(Pending(run), reply) && Recalls(w, run)
    ensures GoesOn(w, run, reply, now)
  {
    var v := w + [Exchanged(Pending(run), reply)];
    Extends(w, Exchanged(Pending(run), reply));
    match reply.read
    case ServerFailed(_) => ProvisionMeets(v, Object(v), run.owner, now);
    case ServerBlank =>
    case ServerFound(server) =>
      UpMeansRunning(server.status);
      SucceedMeets(run.m, server, now);
      WaitMeets(run.m, now);
  }

  lemma BootstrapGoesOn(w: seq<Turn>, run: Run, reply: Reply, now: int)
    requires run.Bootstrapping? && Fits(Pending(run), reply) && Recalls(w, run)
    ensures GoesOn(w, run, reply, now)
  {
    Extends(w, Exchanged(Pending(run), reply));
    assert Raw(reply.secret) == BootstrapData(reply.secret);
    match Raw(reply.secret)
    case None => WaitMeets(run.m, now);
    case Some(Err(e)) => FailMeets(run.m, "failed to get bootstrap data: " + e, now);
    case Some(Ok(_)) =>
  }

  /** With user data at hand, the keys are next. */
  lemma EquipMeets(w: seq<Turn>, m: Machine)
    requires Opened(w) && m == Object(w) && Provisioning(w) && !Last(w).call.GetKeys? && !Mints(Last(w))
    requires Expected(w) == Equip(m)
    ensures Recalls(w, EnterKeys(m))
  {}

  lemma InjectGoesOn(w: seq<Turn>, run: Run, reply: Reply, now: int)
    requires run.Injecting? && Fits(Pending(run), reply) && Recalls(w, run)
    ensures GoesOn(w, run, reply, now)
  {
    var v := w + [Exchanged(Pending(run), reply)];
    Extends(w, Exchanged(Pending(run), reply));
    if !reply.cluster.Missing? && run.m.status.userDataID != "" {
      EquipMeets(v, run.m);
    }
  }

  lemma UploadGoesOn(w: seq<Turn>, run: Run, reply: Reply, now: int)
    requires run.Uploading? && Fits(Pending(run), reply) && Recalls(w, run)
    ensures GoesOn(w, run, reply, now)
  {
    Extends(w, Exchanged(Pending(run), reply));
    if reply.Refused? {
      FailMeets(run.m, "create user-data: " + reply.error, now);
    }
  }

  lemma SavedDataGoesOn(w: seq<Turn>, run: Run, reply: Reply, now: int)
    requires run.SavingData? && Fits(Pending(run), reply) && Recalls(w, run)
    ensures GoesOn(w, run, reply, now)
  {
    var v := w + [Exchanged(Pending(run), reply)];
    Extends(w, Exchanged(Pending(run), reply));
    EquipMeets(v, run.m);
  }

  lemma KeysGoOn(w: seq<Turn>, run: Run, reply: Reply, now: int)
    requires run.Keying? && Fits(Pending(run), reply) && Recalls(w, run)
    ensures GoesOn(w, run, reply, now)
  {
    Extends(w, Exchanged(Pending(run), reply));
    KeysMean(run.ref, reply.secret);
    match KeyList(run.ref, reply.secret)
    case Err(e) => FailMeets(run.m, "failed to get SSH keys: " + e, now);
    case Ok(_) =>
  }

  lemma OrderGoesOn(w: seq<Turn>, run: Run, reply: Reply, now: int)
    requires run.Ordering? && Fits(Pending(run), reply) && Recalls(w, run)
    ensures GoesOn(w, run, reply, now)
  {
    Extends(w, Exchanged(Pending(run), reply));
    PlacementMeans(run.m, reply.placement);
  }

  lemma CreateLeads(run: Run, reply: Reply, now: int)
    requires run.Creating? && Fits(Pending(run), reply)
    ensures Resume(run, reply, now) ==
            if reply.Refused? then Conclude(run.m, Broken("failed to create server: " + reply.error), now)
            else SavingServer(run.m.(status := run.m.status.(serverID := reply.id)))
  {}

  lemma CreateGoesOn(w: seq<Turn>, run: Run, reply: Reply, now: int)
    requires run.Creating? && Fits(Pending(run), reply) && Recalls(w, run)
    ensures GoesOn(w, run, reply, now)
  {
    var v := w + [Exchanged(Pending(run), reply)];
    Extends(w, Exchanged(Pending(run), reply));
    CreateLeads(run, reply, now);
    if reply.Refused? {
      assert Expected(v) == Fail(run.m, "failed to create server: " + reply.error);
      FailRecalls(v, run.m, "failed to create server: " + reply.error, now);
    } else {
      assert Expected(v) == Ask(Save(Object(v)));
    }
  }

  lemma SavedServerGoesOn(w: seq<Turn>, run: Run, reply: Reply, now: int)
    requires run.SavingServer? && Fits(Pending(run), reply) && Recalls(w, run)
    ensures GoesOn(w, run, reply, now)
  {
    var v := w + [Exchanged(Pending(run), reply)];
    Extends(w, Exchanged(Pending(run), reply));
    assert Expected(v) == AfterPatch(v);
    if run.m.status.serverID == "" {
      WaitRecalls(v, run.m, now);
    }
  }

  lemma AttachMeets(m: Machine, reply: Reply, now: int)
    requires Fits(GetCluster, reply)
    ensures var run' := Resume(AttachReading(m), reply, now);
            (run'.Saving? || (run'.Attaching? && run'.m == m)) &&
            Meets(AfterNewServer(m, reply.cluster), run')
  {
    WaitMeets(m, now);
  }

  lemma AttachReadGoesOn(w: seq<Turn>, run: Run, reply: Reply, now: int)
    requires run.AttachReading? && Fits(Pending(run), reply) && Recalls(w, run)
    ensures GoesOn(w, run, reply, now)
  {
    var v := w + [Exchanged(Pending(run), reply)];
    Extends(w, Exchanged(Pending(run), reply));
    assert Expected(v) == AfterNewServer(run.m, reply.cluster);
    AttachMeets(run.m, reply, now);
  }

  lemma AttachWaits(run: Run, reply: Reply, now: int)
    requires run.Attaching? && Fits(Pending(run), reply)
    ensures Resume(run, reply, now) == Conclude(run.m, Waiting, now)
  {}

  lemma AttachGoesOn(w: seq<Turn>, run: Run, reply: Reply, now: int)
    requires run.Attaching? && Fits(Pending(run), reply) && Recalls(w, run)
    ensures GoesOn(w, run, reply, now)
  {
    var v := w + [Exchanged(Pending(run), reply)];
    Extends(w, Exchanged(Pending(run), reply));
    AttachWaits(run, reply, now);
    assert Expected(v) == Wait(run.m);
    WaitRecalls(v, run.m, now);
  }

  lemma RemoveLeads(run: Run, reply: Reply, now: int)
    requires run.Removing? && Fits(Pending(run), reply)
    ensures Resume(run, reply, now) ==
            if reply.Accepted? then EnterRemoveData(run.m)
            else Saving(Report(run.m, ConditionFalse, InstanceDeletionFailed, reply.error, now), SECONDS_30)
  {}

  /** Nothing is left but the user data. */
  lemma ReleaseRecalls(v: seq<Turn>, m: Machine)
    requires Opened(v) && m == Object(v) && !Mints(Last(v)) && Expected(v) == Release(m)
    ensures Recalls(v, EnterRemoveData(m))
  {}

  lemma RemoveGoesOn(w: seq<Turn>, run: Run, reply: Reply, now: int)
    requires run.Removing? && Fits(Pending(run), reply) && Recalls(w, run)
    ensures GoesOn(w, run, reply, now)
  {
    var v := w + [Exchanged(Pending(run), reply)];
    Extends(w, Exchanged(Pending(run), reply));
    RemoveLeads(run, reply, now);
    if reply.Refused? {
      Claims(run.m, Claim(ConditionFalse, InstanceDeletionFailed, reply.error), now);
      EndRecalls(v, Resume(run, reply, now));
    } else {
      assert Expected(v) == Release(run.m);
      ReleaseRecalls(v, run.m);
    }
  }

  lemma ReleaseGoesOn(w: seq<Turn>, run: Run, reply: Reply, now: int)
    requires run.RemovingData? && Fits(Pending(run), reply) && Recalls(w, run)
    ensures GoesOn(w, run, reply, now)
  {
    Extends(w, Exchanged(Pending(run), reply));
  }

  lemma SaveGoesOn(w: seq<Turn>, run: Run, reply: Reply, now: int)
    requires run.Saving? && Fits(Pending(run), reply) && Recalls(w, run)
    ensures GoesOn(w, run, reply, now)
  {
    Extends(w, Exchanged(Pending(run), reply));
  }

  /** Every answer leads to what is expected behind it. */
  lemma EveryAnswerGoesOn(w: seq<Turn>, run: Run, reply: Reply, now: int)
    requires !run.Finished? && Fits(Pending(run), reply) && Recalls(w, run)
    ensures GoesOn(w, run, reply, now)
  {
    match run
    case Reading => ReadGoesOn(w, run, reply, now);
    case Owning(_) => OwnerGoesOn(w, run, reply, now);
    case Checking(_, _) => CheckGoesOn(w, run, reply, now);
    case Listing(_, _) => ListGoesOn(w, run, reply, now);
    case Placing(_, _) => PlaceGoesOn(w, run, reply, now);
    case Polling(_, _) => PollGoesOn(w, run, reply, now);
    case Bootstrapping(_, _) => BootstrapGoesOn(w, run, reply, now);
    case Injecting(_, _) => InjectGoesOn(w, run, reply, now);
    case Uploading(_, _) => UploadGoesOn(w, run, reply, now);
    case SavingData(_) => SavedDataGoesOn(w, run, reply, now);
    case Keying(_, _) => KeysGoOn(w, run, reply, now);
    case Ordering(_, _) => OrderGoesOn(w, run, reply, now);
    case Creating(_, _) => CreateGoesOn(w, run, reply, now);
    case SavingServer(_) => SavedServerGoesOn(w, run, reply, now);
    case AttachReading(_) => AttachReadGoesOn(w, run, reply, now);
    case Attaching(_, _) => AttachGoesOn(w, run, reply, now);
    case Removing(_) => RemoveGoesOn(w, run, reply, now);
    case RemovingData(_) => ReleaseGoesOn(w, run, reply, now);
    case Saving(_, _) => SaveGoesOn(w, run, reply, now);
  }

  // ---- over runs ----

  /** The turns of the reconcile that is running at the end of a history; none if that has just ended. */
  ghost function Turns(log: seq<Event>): seq<Turn> {
    if log == [] then []
    else
      var n := |log| - 1;
      if log[n].Exchange? && Fits(log[n].call, log[n].reply) then Turns(log[..n]) + [Exchanged(log[n].call, log[n].reply)]
      else []
  }

  lemma TurnsGrow(log: seq<Event>, e: Event)
    ensures e.Closed? ==> Turns(log + [e]) == []
    ensures e.Exchange? && Fits(e.call, e.reply) ==> Turns(log + [e]) == Turns(log) + [Exchanged(e.call, e.reply)]
  {
    assert (log + [e])[..|log|] == log;
  }

  /** An event that is expected behind these turns; a crash can always come. */
  ghost predicate Allows(step: Next, e: Event) {
    match e
    case Closed(_, _, _, None) => true
    case Closed(_, _, _, Some(outcome)) => step == Close(outcome)
    case Exchange(_, call, _) => (
      match step
      case Ask(c) => call == c
      case Patch(p, claim, _) => call.Save? && States(p, claim, call.machine)
      case Close(_) => false)
  }

  /** There was a point of the conversation at which this call was made. */
  ghost predicate Asked(w: seq<Turn>, e: Event) {
    e.Exchange? && Fits(e.call, e.reply) && (e.call.CreateServer? && e.reply.Minted? ==> e.reply.id != "") &&
    exists run :: Recalls(w, run) && Shape(run) && !run.Finished? && Pending(run) == e.call
  }

  /** The event at this point comes from the reconcile whose turns precede it, and is what these lead to. */
  ghost predicate Follows(log: seq<Event>, i: nat)
    requires i < |log|
  {
    var w := Turns(log[..i]);
    && (w != [] ==> i > 0 && log[i].uid == log[i - 1].uid && w[0].call.GetMachine?)
    && (log[i].Exchange? ==> Asked(w, log[i]))
    && (log[i].Closed? && log[i].outcome.Some? ==> w != [] && Expected(w) == Close(log[i].outcome.value))
  }

  ghost predicate Told(s: State) {
    && (forall i :: 0 <= i < |s.log| ==> Follows(s.log, i))
    && (Turns(s.log) != [] ==> s.active.Some? && s.log[|s.log| - 1].uid == s.active.value.uid)
    && (s.active.Some? ==> Recalls(Turns(s.log), s.active.value.run))
  }

  lemma FollowsGrows(log: seq<Event>, more: seq<Event>, i: nat)
    requires i < |log| && Follows(log, i)
    ensures Follows(log + more, i)
  {
    assert (log + more)[..i] == log[..i];
  }

  lemma NewTurnFollows(s: State, reply: Reply, side: Option<string>, e: Event)
    requires Sound(s) && Told(s) && s.active.Some? && !s.active.value.run.Finished? && Fits(Pending(s.active.value.run), reply)
    requires Truthful(s, s.active.value.uid, s.active.value.run, reply)
    requires e == Exchange(s.active.value.uid, Pending(s.active.value.run), reply)
    ensures Follows(s.log + [e], |s.log|)
  {
    assert (s.log + [e])[..|s.log|] == s.log;
    assert Asked(Turns(s.log), e);
  }

  lemma {:induction false} EndFollows(log: seq<Event>, a: Active, e: Event)
    requires log != [] && a.run.Finished? && e.Closed? && e.uid == a.uid && e.outcome == Some(a.run.outcome)
    requires log[|log| - 1].uid == a.uid && Recalls(Turns(log), a.run)
    ensures Follows(log + [e], |log|) && Turns(log + [e]) == []
  {
    TurnsGrow(log, e);
    assert (log + [e])[..|log|] == log;
  }

  /** A history of which every event follows, and one more event that does. */
  lemma AllFollow(log: seq<Event>, e: Event)
    requires forall i :: 0 <= i < |log| ==> Follows(log, i)
    requires Follows(log + [e], |log|)
    ensures forall i :: 0 <= i < |log + [e]| ==> Follows(log + [e], i)
  {
    forall i | 0 <= i < |log + [e]| ensures Follows(log + [e], i) {
      if i < |log| {
        FollowsGrows(log, [e], i);
      }
    }
  }

  lemma ToldTurn(s: State, a: Action) returns (log: seq<Event>)
    requires Sound(s) && Told(s) && Legal(s, a) && a.Answer?
    ensures log == s.log + [Exchange(s.active.value.uid, Pending(s.active.value.run), a.reply)]
    ensures forall i :: 0 <= i < |log| ==> Follows(log, i)
    ensures Recalls(Turns(log), Resume(s.active.value.run, a.reply, a.now))
  {
    var b := s.active.value;
    var e := Exchange(b.uid, Pending(b.run), a.reply);
    log := s.log + [e];
    EveryAnswerGoesOn(Turns(s.log), b.run, a.reply, a.now);
    TurnsGrow(s.log, e);
    NewTurnFollows(s, a.reply, a.side, e);
    AllFollow(s.log, e);
  }

  lemma {:induction false} ToldEnd(log: seq<Event>, d: Active)
    requires log != [] && log[|log| - 1].uid == d.uid && d.run.Finished? && Recalls(Turns(log), d.run)
    requires forall i :: 0 <= i < |log| ==> Follows(log, i)
    ensures Turns(log + [Ending(d)]) == [] && forall i :: 0 <= i < |log + [Ending(d)]| ==> Follows(log + [Ending(d)], i)
  {
    EndFollows(log, d, Ending(d));
    AllFollow(log, Ending(d));
  }

  lemma ToldAnswer(s: State, a: Action)
    requires Sound(s) && Told(s) && Legal(s, a) && a.Answer?
    ensures Told(Step(s, a))
  {
    var d := Track(s.active.value, a.reply, Resume(s.active.value.run, a.reply, a.now));
    var log := ToldTurn(s, a);
    if d.run.Finished? {
      ToldEnd(log, d);
      assert Step(s, a).log == log + [Ending(d)];
    }
  }

  lemma ToldCrash(s: State)
    requires Told(s) && Legal(s, Crash)
    ensures Told(Step(s, Crash))
  {
    var t := Step(s, Crash);
    var e := t.log[|s.log|];
    TurnsGrow(s.log, e);
    assert t.log == s.log + [e] && t.log[..|s.log|] == s.log;
    AllFollow(s.log, e);
  }

  lemma ToldStep(s: State, a: Action)
    requires Sound(s) && Told(s) && Legal(s, a)
    ensures Told(Step(s, a))
  {
    if a.Answer? {
      ToldAnswer(s, a);
    } else if a.Crash? {
      ToldCrash(s);
    }
  }

  lemma {:induction false} AlwaysTold(actions: seq<Action>)
    requires Execute(actions).Some?
    ensures Told(Execute(actions).value)
  {
    if actions != [] {
      var n := |actions| - 1;
      AlwaysSound(actions[..n]);
      AlwaysTold(actions[..n]);
      ToldStep(Execute(actions[..n]).value, actions[n]);
    }
  }

  /**
   * In every run, each event of the history is decided by the answers that the same reconcile got before it: every call
   * with all its arguments, every object that is patched, up to the time of a report, and every result, unless the
   * process crashes instead. So a reconcile acts on nothing but what it has read itself.
   */
  lemma HistoryDecides(actions: seq<Action>, i: nat)
    requires Execute(actions).Some? && i < |Execute(actions).value.log|
    ensures var log := Execute(actions).value.log; var w := Turns(log[..i]);
            && (w != [] ==> i > 0 && log[i].uid == log[i - 1].uid && w[0].call.GetMachine?)
            && Allows(Expected(w), log[i])
  {
    AlwaysTold(actions);
    var log := Execute(actions).value.log;
    assert Follows(log, i);
    if log[i].Exchange? {
      var run :| Recalls(Turns(log[..i]), run) && !run.Finished? && Pending(run) == log[i].call;
    }
  }
}
