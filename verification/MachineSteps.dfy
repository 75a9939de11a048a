/** What one answer can do to a reconcile: the facts about MachineFlow.Resume on which the theorems over runs rest. */
module MachineSteps {
  import opened Prelude
  import opened Conditions
  import opened Api
  import opened MachineFlow

  /** A bound on the calls that are still to come. */
  function CallsLeft(run: Run): nat {
    match run
    case Finished(_) => 0
    case Saving(_, _) => 1
    case Attaching(_, _) => 2
    case AttachReading(_) => 3
    case SavingServer(_) => 4
    case Creating(_, _) => 5
    case Ordering(_, _) => 6
    case Keying(_, _) => 7
    case SavingData(_) => 8
    case Uploading(_, _) => 9
    case Injecting(_, _) => 10
    case Bootstrapping(_, _) => 11
    case Polling(_, _) => 12
    case Placing(_, _) => 13
    case Listing(_, _) => 14
    case Checking(_, _) => 15
    case Owning(_) => 16
    case RemovingData(_) => 2
    case Removing(_) => 3
    case Reading => 17
  }

  /** The report on the instance: the status of its InstanceReady condition. */
  function Reported(m: Machine): Option<Truth> {
    match Lookup(m.status.conditions, InstanceReady)
    case None => None
    case Some(c) => Some(c.status)
  }

  predicate JustRan(run: Run, reply: Reply) {
    run.Polling? && reply.ServerIs? && reply.read.ServerFound? && IsUp(reply.read.server.status)
  }

  /** In reconcileServer, with no server on record. */
  predicate Unserved(run: Run) {
    run.Bootstrapping? || run.Injecting? || run.Uploading? || run.SavingData? || run.Keying? || run.Ordering? || run.Creating?
  }

  /** In reconcileNormal, behind its early returns. */
  predicate Working(run: Run) {
    run.Owning? || run.Checking? || run.Listing? || run.Placing? || run.Polling? || Unserved(run)
    || run.SavingServer? || run.AttachReading? || run.Attaching?
  }

  /** What the in-memory object satisfies at each point of a reconcile. */
  ghost predicate Shape(run: Run) {
    && (Working(run) ==> InProgress(run.m))
    && (run.Polling? ==> run.m.status.serverID != "")
    && (Unserved(run) ==> run.m.status.serverID == "")
    && (run.Uploading? ==> run.m.status.userDataID == "" && run.data.machine == run.m.name)
    && (run.Creating? ==>
          run.spec.userData == run.m.status.userDataID && run.spec.hostname == run.m.namespace + "-" + run.m.name)
    && (run.Removing? ==> run.m.deleting && run.m.status.serverID != "")
    && (run.RemovingData? ==> run.m.deleting)
    && (run.Saving? ==> run.m.deleting || run.m.finalizer || run.m.paused)
  }

  ghost predicate InProgress(m: Machine) {
    !m.paused && !m.deleting && m.finalizer && !m.status.ready && m.status.failureReason.None?
  }

  ghost predicate SameIdentity(m: Machine, m': Machine) {
    m'.uid == m.uid && m'.namespace == m.namespace && m'.name == m.name && m'.paused == m.paused && m'.deleting == m.deleting
    && m'.generation == m.generation && m'.spec.os == m.spec.os && m'.spec.plan == m.spec.plan
    && m'.spec.sshKeys == m.spec.sshKeys
  }

  /** The first answer: the object as it was read, with the finalizer added, or removed if nothing is left to delete. */
  ghost predicate Begins(m: Machine, run': Run) {
    !run'.Finished? && !run'.Reading? && run'.m == m.(finalizer := run'.m.finalizer) &&
    (run'.Owning? || run'.Saving? || run'.Removing? || run'.RemovingData?) &&
    (run'.m.finalizer && !m.finalizer ==> run'.Saving? && !m.deleting && !m.paused) &&
    (!run'.m.finalizer && m.finalizer ==> run'.Saving? && m.deleting && m.status.serverID == "") &&
    (run'.Saving? && run'.m == m ==> m.paused || m.deleting || m.status.ready || m.status.failureReason.Some?) &&
    (run'.RemovingData? ==> m.status.serverID == "")
  }

  /** How the memory moves from one call to the next. */
  ghost predicate Moves(run: Run, reply: Reply, m: Machine, m': Machine) {
    && SameIdentity(m, m')
    && m'.status.serverID == (if run.Polling? && reply.ServerIs? && reply.read.ServerFailed? then ""
                              else if run.Creating? && reply.Minted? then reply.id
                              else m.status.serverID)
    && m'.status.userDataID == (if run.Uploading? && reply.Minted? then reply.id else m.status.userDataID)
    && m'.finalizer == (m.finalizer && !run.RemovingData? && !(run.Removing? && reply.Accepted? && m.status.userDataID == ""))
    && (JustRan(run, reply) ==>
          m'.status.ready && m'.status.failureReason.None? && m'.status.addresses == AddressesOf(reply.read.server) &&
          m'.status.providerID == ProviderID(m.status.serverID) && m'.spec.providerID == Some(ProviderID(m.status.serverID)))
    && (!JustRan(run, reply) ==>
          m'.status.addresses == m.status.addresses && m'.spec.providerID == m.spec.providerID &&
          m'.status.providerID == m.status.providerID &&
          (m'.status.ready == m.status.ready || MarkedFailed(run, reply, m')) &&
          (m'.status.failureReason == m.status.failureReason || MarkedFailed(run, reply, m')))
  }

  /** A machine is marked as failed because of a failed control plane, or because of its own permanent error. */
  ghost predicate MarkedFailed(run: Run, reply: Reply, m': Machine) {
    m'.status.failureReason.Some? && !m'.status.ready &&
    ((run.Listing? && reply.SiblingsAre? && reply.siblings.Found? && SawFailure(reply.siblings.value)) ||
     (!run.Finished? && Fits(Pending(run), reply) && ServerError(run, reply).Some? && IsPermanent(ServerError(run, reply).value)))
  }

  /** The order of the calls. */
  ghost predicate Leads(run: Run, reply: Reply, run': Run) {
    && (run'.Finished? <==> run.Saving? || (run.Reading? && reply.MachineIs? && !reply.machine.Found?))
    && (run'.Checking? ==> run.Owning? && reply.OwnerIs? && reply.owner.Found? && !reply.owner.value.controlPlane)
    && (run'.Listing? ==> run.Checking?)
    && (run'.Placing? ==>
          || (run.Owning? && reply.OwnerIs? && reply.owner.Found? && reply.owner.value.controlPlane)
          || (run.Checking? && reply.ClusterIs? && !reply.cluster.Found?)
          || (run.Listing? && reply.SiblingsAre? && !(reply.siblings.Found? && SawFailure(reply.siblings.value))))
    && (run'.Polling? ==> run.Placing?) && (run'.Bootstrapping? ==> run.Placing? || run.Polling?)
    && (run'.Injecting? ==> run.Bootstrapping?) && (run'.Uploading? ==> run.Injecting?)
    && (run'.SavingData? <==> run.Uploading? && reply.Minted?)
    && (run'.Keying? ==> run.Injecting? || run.SavingData?)
    && (run.Injecting? && (run'.Keying? || run'.Ordering?) ==> run.m.status.userDataID != "")
    && (run'.Ordering? ==> run.Injecting? || run.SavingData? || run.Keying?)
    && (run'.Creating? <==> run.Ordering?) && (run'.SavingServer? <==> run.Creating? && reply.Minted?)
    && (run'.AttachReading? ==> run.SavingServer?) && (run'.Attaching? ==> run.AttachReading?)
    && (run'.Owning? || run'.Removing? ==> run.Reading?) && (run'.RemovingData? ==> run.Reading? || run.Removing?)
    && (run.RemovingData? ==> run'.Saving?) && (run'.RemovingData? && run.Removing? ==> reply.Accepted? && run'.m == run.m)
    && (run.Removing? && reply.Accepted? && run.m.status.userDataID == "" ==> run'.Saving?)
    && !run'.Reading?
  }

  /** Everything above, about one answer. */
  ghost predicate Change(run: Run, reply: Reply, run': Run)
    requires !run.Finished? && Fits(Pending(run), reply)
  {
    && CallsLeft(run') < CallsLeft(run)
    && Shape(run')
    && Leads(run, reply, run')
    && (!run'.Finished? && run.Reading? ==> Begins(reply.machine.value, run'))
    && (!run'.Finished? && !run.Reading? ==> Moves(run, reply, run.m, run'.m))
  }

  lemma BeginChange(run: Run, reply: Reply, now: int)
    requires (run.Reading?) && Fits(Pending(run), reply) && Shape(run)
    ensures Change(run, reply, Resume(run, reply, now))
  {}

  lemma OwnerChange(run: Run, reply: Reply, now: int)
    requires (run.Owning? || run.Checking?) && Fits(Pending(run), reply) && Shape(run)
    ensures Change(run, reply, Resume(run, reply, now))
  {}

  lemma ListChange(run: Run, reply: Reply, now: int)
    requires (run.Listing?) && Fits(Pending(run), reply) && Shape(run)
    ensures Change(run, reply, Resume(run, reply, now))
  {}

  lemma PlaceChange(run: Run, reply: Reply, now: int)
    requires (run.Placing?) && Fits(Pending(run), reply) && Shape(run)
    ensures Change(run, reply, Resume(run, reply, now))
  {}

  lemma PollChange(run: Run, reply: Reply, now: int)
    requires (run.Polling?) && Fits(Pending(run), reply) && Shape(run)
    ensures Change(run, reply, Resume(run, reply, now))
  {}

  lemma BootChange(run: Run, reply: Reply, now: int)
    requires (run.Bootstrapping?) && Fits(Pending(run), reply) && Shape(run)
    ensures Change(run, reply, Resume(run, reply, now))
  {}

  lemma InjectChange(run: Run, reply: Reply, now: int)
    requires (run.Injecting?) && Fits(Pending(run), reply) && Shape(run)
    ensures Change(run, reply, Resume(run, reply, now))
  {}

  lemma UploadChange(run: Run, reply: Reply, now: int)
    requires (run.Uploading? || run.SavingData?) && Fits(Pending(run), reply) && Shape(run)
    ensures Change(run, reply, Resume(run, reply, now))
  {}

  lemma KeysChange(run: Run, reply: Reply, now: int)
    requires (run.Keying?) && Fits(Pending(run), reply) && Shape(run)
    ensures Change(run, reply, Resume(run, reply, now))
  {}

  lemma OrderChange(run: Run, reply: Reply, now: int)
    requires (run.Ordering? || run.Creating?) && Fits(Pending(run), reply) && Shape(run)
    ensures Change(run, reply, Resume(run, reply, now))
  {}

  lemma SavedChange(run: Run, reply: Reply, now: int)
    requires run.SavingServer? && Fits(Pending(run), reply) && Shape(run)
    ensures Change(run, reply, Resume(run, reply, now))
  {}

  lemma AttachReadChange(run: Run, reply: Reply, now: int)
    requires run.AttachReading? && Fits(Pending(run), reply) && Shape(run)
    ensures Change(run, reply, Resume(run, reply, now))
  {}

  lemma AttachChange(run: Run, reply: Reply, now: int)
    requires run.Attaching? && Fits(Pending(run), reply) && Shape(run)
    ensures Change(run, reply, Resume(run, reply, now))
  {
    assert Resume(run, reply, now) == Conclude(run.m, Waiting, now);
  }

  lemma EndChange(run: Run, reply: Reply, now: int)
    requires (run.Removing? || run.RemovingData? || run.Saving?) && Fits(Pending(run), reply) && Shape(run)
    ensures Change(run, reply, Resume(run, reply, now))
  {}

  /** Every answer changes a reconcile as described. */
  lemma EveryChange(run: Run, reply: Reply, now: int)
    requires !run.Finished? && Fits(Pending(run), reply) && Shape(run)
    ensures Change(run, reply, Resume(run, reply, now))
  {
    match run
    case Reading => BeginChange(run, reply, now);
    case Owning(_) | Checking(_, _) => OwnerChange(run, reply, now);
    case Listing(_, _) => ListChange(run, reply, now);
    case Placing(_, _) => PlaceChange(run, reply, now);
    case Polling(_, _) => PollChange(run, reply, now);
    case Bootstrapping(_, _) => BootChange(run, reply, now);
    case Injecting(_, _) => InjectChange(run, reply, now);
    case Uploading(_, _) | SavingData(_) => UploadChange(run, reply, now);
    case Keying(_, _) => KeysChange(run, reply, now);
    case Ordering(_, _) | Creating(_, _) => OrderChange(run, reply, now);
    case SavingServer(_) => SavedChange(run, reply, now);
    case AttachReading(_) => AttachReadChange(run, reply, now);
    case Attaching(_, _) => AttachChange(run, reply, now);
    case Removing(_) | RemovingData(_) | Saving(_, _) => EndChange(run, reply, now);
  }

  /** Whatever the answers, a reconcile ends after at most 17 of them. One lookup, or one list with its owners, is one answer. */
  lemma EveryReconcileEnds(run: Run, reply: Reply, now: int)
    requires !run.Finished? && Fits(Pending(run), reply) && Shape(run)
    ensures CallsLeft(Resume(run, reply, now)) < CallsLeft(run) <= 17
  {
    EveryChange(run, reply, now);
  }
}
