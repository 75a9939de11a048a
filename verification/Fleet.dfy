/**
 * The machines of a management cluster as a transition system. The state holds the persisted objects, the servers
 * that are alive in the cloud, the one reconcile that may be running (MaxConcurrentReconciles is 1) with its in-memory
 * object, and the history of calls. An adversary answers each call as the contracts below allow, and between any two
 * calls may crash the process, delete servers behind its back, and let users pause, edit or delete objects.
 */
module Fleet {
  import opened Prelude
  import opened Api
  import opened MachineFlow

  datatype Event =
    | Exchange(uid: Uid, call: Call, reply: Reply)
    | Closed(uid: Uid, unsavedServer: bool, unsavedData: bool, // a reconcile ended with this outcome, or crashed
             outcome: Option<Outcome>)

  /**
   * The running reconcile. The flags say that it made a server, or a user data, and no patch has succeeded since; and
   * that it could not look at the control planes: its cluster, its namespace or an owner in there could not be read.
   */
  datatype Active = Active(uid: Uid, run: Run, unsavedServer: bool, unsavedData: bool, blind: bool)

  /** An object as it was applied, and the cluster of the Machine that owns it. */
  datatype Birth = Birth(machine: Machine, cluster: string)

  datatype State = State(
    objects: map<Uid, Machine>,    // persisted
    known: set<Uid>,               // every object that ever existed
    born: map<Uid, Birth>,         // ... and how it came to be
    controlPlanes: set<Uid>,       // objects whose owner carries the control-plane label
    servers: map<string, Uid>,     // live servers, and the object that each was made for
    issued: map<string, Uid>,      // every server id that was ever handed out, and the object it was made for
    active: Option<Active>,
    log: seq<Event>)

  datatype Action =
    | Apply(machine: Machine, controlPlane: bool, cluster: string)    // a new object
    | Edit(uid: Uid, os: string, plan: string, sshKeys: Option<SecretRef>)
    | Pause(uid: Uid, on: bool)
    | Delete(uid: Uid)                               // sets the deletion timestamp
    | Vanish(uid: Uid)                               // the API server drops a deleted object without finalizer
    | Lose(server: string)                           // a server is deleted outside the provider
    | Begin(uid: Uid)                                // a reconcile starts
    | Answer(reply: Reply, now: int, side: Option<string>)
    | Crash

  const EMPTY := State(map[], {}, map[], {}, map[], map[], None, [])

  predicate Blank(m: Machine) {
    !m.finalizer && !m.deleting && m.spec.providerID.None? &&
    m.status == MachineStatus(false, "", "", "", [], None, None, [])
  }

  // ---- contracts of the Kubernetes API and of the cloud ----

  /** The owner of an object is read as it is: with its control-plane label and its cluster. */
  ghost predicate TrueOwner(s: State, uid: Uid, owner: Owner) {
    (owner.controlPlane <==> uid in s.controlPlanes) && uid in s.born && owner.cluster == s.born[uid].cluster
  }

  /** A list of the namespace: exactly its objects, with the owners that could be read. */
  ghost predicate Lists(s: State, namespace: string, siblings: seq<Sibling>) {
    (forall i :: 0 <= i < |siblings| ==>
      var b := siblings[i];
      b.machine.namespace == namespace && b.machine.uid in s.objects && s.objects[b.machine.uid] == b.machine &&
      (b.owner.Found? ==> TrueOwner(s, b.machine.uid, b.owner.value))) &&
    (forall u :: u in s.objects && s.objects[u].namespace == namespace ==>
      exists i :: 0 <= i < |siblings| && siblings[i].machine == s.objects[u])
  }

  /**
   * What an answer may claim: reads return what is persisted, patches need the object, servers that are returned
   * exist, new server ids are non-empty and never used before. Any call may fail, except that a read does not fail
   * by pretending an existing object is gone.
   */
  ghost predicate Truthful(s: State, uid: Uid, run: Run, reply: Reply)
    requires !run.Finished? && Fits(Pending(run), reply)
  {
    match Pending(run)
    case GetMachine =>
      (reply.machine.Found? ==> uid in s.objects && reply.machine.value == s.objects[uid]) &&
      (reply.machine.Missing? ==> uid !in s.objects)
    case GetOwner => reply.owner.Found? ==> TrueOwner(s, uid, reply.owner.value)
    case ListSiblings => reply.siblings.Found? ==> Lists(s, run.m.namespace, reply.siblings.value)
    case GetServer(id) => reply.read.ServerFound? ==> id in s.servers
    case CreateServer(spec) => reply.Minted? ==> ValidSpec(spec) && FreshServer(s, reply.id)
    case Save(_) => reply.Accepted? ==> uid in s.objects
    case _ => true
  }

  predicate FreshServer(s: State, id: string) {
    id != "" && id !in s.issued
  }

  /** A refused call may have taken effect all the same: a server was made, or deleted, and the answer got lost. */
  ghost predicate SideEffect(s: State, call: Call, reply: Reply, side: Option<string>) {
    side.Some? ==>
      reply.Refused? &&
      ((call.CreateServer? && ValidSpec(call.spec) && FreshServer(s, side.value)) ||
       (call.DeleteServer? && side.value == call.id))
  }

  // ---- steps ----

  ghost predicate Legal(s: State, a: Action) {
    match a
    case Apply(m, _, _) => m.uid !in s.known && Blank(m)
    case Edit(uid, _, _, _) => uid in s.objects
    case Pause(uid, _) => uid in s.objects
    case Delete(uid) => uid in s.objects
    case Vanish(uid) => uid in s.objects && s.objects[uid].deleting && !s.objects[uid].finalizer
    case Lose(id) => id in s.servers
    case Begin(uid) => s.active.None? && uid in s.known
    case Crash => s.active.Some?
    case Answer(reply, _, side) =>
      s.active.Some? && !s.active.value.run.Finished? &&
      var run := s.active.value.run;
      Fits(Pending(run), reply) && Truthful(s, s.active.value.uid, run, reply) && SideEffect(s, Pending(run), reply, side)
  }

  /** A patch writes what the controller owns: the finalizer, the provider id and the status. */
  function Patched(old_: Machine, m: Machine): Machine {
    old_.(finalizer := m.finalizer, spec := old_.spec.(providerID := m.spec.providerID), status := m.status)
  }

  function Track(a: Active, reply: Reply, run': Run): Active
    requires !a.run.Finished? && Fits(Pending(a.run), reply)
  {
    var saved := Pending(a.run).Save? && reply.Accepted?;
    a.(run := run',
       unsavedServer := if saved then false else a.unsavedServer || (a.run.Creating? && reply.Minted?),
       unsavedData := if saved then false else a.unsavedData || (a.run.Uploading? && reply.Minted? && reply.id != ""),
       blind := a.blind || (a.run.Checking? && !reply.cluster.Found?)
                || (a.run.Listing? && !(reply.siblings.Found? && AllReadable(reply.siblings.value))))
  }

  predicate AllReadable(siblings: seq<Sibling>) {
    forall i | 0 <= i < |siblings| :: siblings[i].owner.Found?
  }

  /** The persisted objects behind a call: a successful patch writes one. */
  function ObjectsAfter(s: State, uid: Uid, call: Call, reply: Reply): map<Uid, Machine> {
    if call.Save? && reply.Accepted? && uid in s.objects then
      s.objects[uid := Patched(s.objects[uid], call.machine)]
    else s.objects
  }

  /** The server that a call made, if any. */
  function Made(call: Call, reply: Reply, side: Option<string>): Option<string> {
    if !call.CreateServer? then None else if reply.Minted? then Some(reply.id) else side
  }

  function ServersAfter(s: State, uid: Uid, call: Call, reply: Reply, side: Option<string>): map<string, Uid> {
    var made := Made(call, reply, side);
    if made.Some? then s.servers[made.value := uid]
    else if call.DeleteServer? && (reply.Accepted? || side.Some?) then s.servers - {call.id}
    else s.servers
  }

  function IssuedAfter(s: State, uid: Uid, call: Call, reply: Reply, side: Option<string>): map<string, Uid> {
    var made := Made(call, reply, side);
    if made.Some? then s.issued[made.value := uid] else s.issued
  }

  /** The end of a reconcile that has finished. */
  function Ending(b: Active): Event
    requires b.run.Finished?
  {
    Closed(b.uid, b.unsavedServer, b.unsavedData, Some(b.run.outcome))
  }

  /** The state behind an answer on which the reconcile goes on as run'. */
  function Advance(s: State, reply: Reply, side: Option<string>, run': Run): State
    requires s.active.Some? && !s.active.value.run.Finished? && Fits(Pending(s.active.value.run), reply)
  {
    var a, call := s.active.value, Pending(s.active.value.run);
    var b, exchange := Track(a, reply, run'), [Exchange(a.uid, call, reply)];
    State(ObjectsAfter(s, a.uid, call, reply), s.known, s.born, s.controlPlanes,
          ServersAfter(s, a.uid, call, reply, side), IssuedAfter(s, a.uid, call, reply, side),
          if run'.Finished? then None else Some(b),
          s.log + if run'.Finished? then exchange + [Ending(b)] else exchange)
  }

  function Step(s: State, a: Action): State
    requires Legal(s, a)
  {
    match a
    case Apply(m, controlPlane, cluster) =>
      s.(objects := s.objects[m.uid := m], known := s.known + {m.uid}, born := s.born[m.uid := Birth(m, cluster)],
         controlPlanes := if controlPlane then s.controlPlanes + {m.uid} else s.controlPlanes)
    case Edit(uid, os, plan, sshKeys) =>
      var m := s.objects[uid];
      var edited := m.spec.(os := os, plan := plan, sshKeys := sshKeys);
      s.(objects := s.objects[uid := m.(spec := edited, generation := m.generation + 1)])
    case Pause(uid, on) => s.(objects := s.objects[uid := s.objects[uid].(paused := on)])
    case Delete(uid) => s.(objects := s.objects[uid := s.objects[uid].(deleting := true)])
    case Vanish(uid) => s.(objects := s.objects - {uid})
    case Lose(id) => s.(servers := s.servers - {id})
    case Begin(uid) => s.(active := Some(Active(uid, Reading, false, false, false)))
    case Crash =>
      var b := s.active.value;
      s.(active := None, log := s.log + [Closed(b.uid, b.unsavedServer, b.unsavedData, None)])
    case Answer(reply, now, side) => Advance(s, reply, side, Resume(s.active.value.run, reply, now))
  }

  /** The state behind a sequence of actions from a state, if each of them is legal where it happens. */
  ghost function ExecuteFrom(s: State, actions: seq<Action>): Option<State> {
    if actions == [] then Some(s)
    else
      var n := |actions| - 1;
      var before := ExecuteFrom(s, actions[..n]);
      if before.Some? && Legal(before.value, actions[n]) then Some(Step(before.value, actions[n])) else None
  }

  /** A run of the fleet, from no objects and no servers. */
  ghost function Execute(actions: seq<Action>): Option<State> {
    ExecuteFrom(EMPTY, actions)
  }
}
