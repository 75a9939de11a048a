/** What the machine reconciler promises about its calls, read off the history of any run. */
module MachinePromises {
  import opened Prelude
  import opened Text
  import opened Conditions
  import opened Api
  import opened UserData
  import opened MachineFlow
  import opened MachineSteps
  import opened Fleet
  import opened FleetInvariant
  import opened MachineLaws
  import opened MachineHistory
  import SshKeys
  import UploadText
  import VlanAddress

  predicate Crashed(e: Event) {
    e.Closed? && e.outcome.None?
  }

  /** A call of this object's reconcile. */
  predicate Calls(e: Event, u: Uid) {
    e.Exchange? && e.uid == u && Fits(e.call, e.reply)
  }

  /** The point of the conversation at which a call was made. */
  lemma {:induction false} PointOf(actions: seq<Action>, i: nat) returns (w: seq<Turn>, run: Run)
    requires Execute(actions).Some?
    requires i < |Execute(actions).value.log| && Execute(actions).value.log[i].Exchange?
    ensures var log := Execute(actions).value.log; var e := log[i];
            && w == Turns(log[..i]) && Calls(e, e.uid)
            && Recalls(w, run) && Shape(run) && !run.Finished? && Pending(run) == e.call
            && (e.call.CreateServer? && e.reply.Minted? ==> e.reply.id != "")
  {
    AlwaysTold(actions);
    var log := Execute(actions).value.log;
    w := Turns(log[..i]);
    assert Follows(log, i);
    run :| Recalls(w, run) && Shape(run) && !run.Finished? && Pending(run) == log[i].call;
  }

  lemma {:induction false} NextTurns(log: seq<Event>, i: nat)
    requires i < |log| && log[i].Exchange? && Fits(log[i].call, log[i].reply)
    ensures Turns(log[..i + 1]) == Turns(log[..i]) + [Exchanged(log[i].call, log[i].reply)]
  {
    TurnsGrow(log[..i], log[i]);
    assert log[..i + 1] == log[..i] + [log[i]];
  }

  /** And what comes next. */
  lemma {:induction false} CallAndNext(actions: seq<Action>, i: nat) returns (w: seq<Turn>, run: Run)
    requires Execute(actions).Some?
    requires i < |Execute(actions).value.log| && Execute(actions).value.log[i].Exchange?
    ensures var log := Execute(actions).value.log; var e := log[i];
            && w == Turns(log[..i]) && Calls(e, e.uid)
            && Recalls(w, run) && Shape(run) && !run.Finished? && Pending(run) == e.call
            && (e.call.CreateServer? && e.reply.Minted? ==> e.reply.id != "")
            && Turns(log[..i + 1]) == w + [Exchanged(e.call, e.reply)]
            && (i + 1 < |log| ==> log[i + 1].uid == e.uid && Allows(Expected(Turns(log[..i + 1])), log[i + 1]))
  {
    w, run := PointOf(actions, i);
    NextTurns(Execute(actions).value.log, i);
    if i + 1 < |Execute(actions).value.log| {
      HistoryDecides(actions, i + 1);
    }
  }

  // ---- one reconcile ----

  /** From j to i the calls are those of one reconcile of u, which began by reading m. */
  ghost predicate OneReconcile(log: seq<Event>, j: nat, i: nat, u: Uid, m: Machine) {
    && j < i <= |log|
    && (forall k :: j <= k < i ==> Calls(log[k], u))
    && log[j].call.GetMachine? && log[j].reply == MachineIs(Found(m))
  }

  /** This event is this turn of u's. */
  predicate Is(e: Event, u: Uid, t: Turn) {
    e.Exchange? && e.uid == u && t == Exchanged(e.call, e.reply)
  }

  /** The turns are the events from j on, all of u's. */
  ghost predicate Matches(log: seq<Event>, j: nat, u: Uid, w: seq<Turn>) {
    j + |w| == |log| && forall k :: j <= k < |log| ==> Is(log[k], u, w[k - j])
  }

  /** The turns of a history are its last events. */
  lemma {:induction false} TurnsMatch(log: seq<Event>, u: Uid) returns (j: nat)
    requires forall k :: 0 <= k < |log| ==> Follows(log, k)
    requires Turns(log) != [] ==> log[|log| - 1].uid == u
    ensures Matches(log, j, u, Turns(log))
  {
    if Turns(log) == [] {
      j := |log|;
    } else {
      var n := |log| - 1;
      var front, w := log[..n], Turns(log);
      assert Follows(log, n) && forall k :: 0 <= k < n ==> front[..k] == log[..k] && front[k] == log[k];
      forall k | 0 <= k < n ensures Follows(front, k) {
        assert Follows(log, k);
      }
      j := TurnsMatch(front, u);
      assert w == Turns(front) + [Exchanged(log[n].call, log[n].reply)];
      forall k | j <= k < |log| ensures Is(log[k], u, w[k - j]) {
        if k < n {
          assert Is(front[k], u, Turns(front)[k - j]);
        }
      }
    }
  }

  /** Nothing but ids changes in memory. */
  lemma {:induction false} ObjectIsAsRead(w: seq<Turn>)
    requires Opened(w)
    ensures var m, read := Object(w), w[0].reply.machine.value; m == read.(status := m.status)
    decreases |w|
  {
    if |w| > 1 {
      ObjectIsAsRead(Front(w));
    }
  }

  /** The turns behind which an event comes, the reconcile that they make up, and the last two of them. */
  lemma ReconcileOf(actions: seq<Action>, i: nat, w: seq<Turn>) returns (j: nat, m: Machine)
    requires Execute(actions).Some?
    requires i < |Execute(actions).value.log| && w == Turns(Execute(actions).value.log[..i]) && Opened(w) && |w| > 1
    ensures var log := Execute(actions).value.log;
            && j + |w| == i && OneReconcile(log, j, i, log[i].uid, m) && Object(w) == m.(status := Object(w).status)
            && Is(log[i - 1], log[i].uid, Last(w)) && Is(log[i - 2], log[i].uid, Last(Front(w)))
  {
    AlwaysTold(actions);
    var log := Execute(actions).value.log;
    assert Follows(log, i);
    forall k | 0 <= k < i ensures Follows(log[..i], k) {
      assert Follows(log, k) && log[..i][..k] == log[..k];
    }
    j := TurnsMatch(log[..i], log[i].uid);
    m := w[0].reply.machine.value;
    ObjectIsAsRead(w);
    forall k | j <= k < i ensures Is(log[k], log[i].uid, w[k - j]) {
      assert Is(log[..i][k], log[i].uid, w[k - j]);
    }
    assert Is(log[j], log[i].uid, w[j - j]);
    assert Is(log[i - 1], log[i].uid, w[i - 1 - j]) && Is(log[i - 2], log[i].uid, w[i - 2 - j]);
  }

  // ---- polling ----

  /** The machine is Ready, under the server's id and its addresses: the IPs, and then the host name if there is one. */
  predicate ReadyFor(p: Machine, server: Server) {
    && p.status.ready && p.status.serverID == server.id
    && p.status.providerID == "latitude://" + server.id && p.spec.providerID == Some("latitude://" + server.id)
    && |p.status.addresses| == |server.ips| + (if server.hostname == "" then 0 else 1)
    && (forall k :: 0 <= k < |server.ips| ==> p.status.addresses[k] == Address(ExternalIP, server.ips[k]))
    && (server.hostname != "" ==> p.status.addresses[|server.ips|] == Address(HostName, server.hostname))
  }

  lemma SucceedIsReady(m: Machine, server: Server)
    ensures ReadyFor(Succeed(m, server).machine, server)
  {}

  /**
   * In every run, behind a GetServer call that found the server comes the deferred patch, unless the process crashes;
   * and it makes the machine Ready, for that server, if and only if the server's status is one of three words, letter
   * case aside. With any other status the machine is not Ready and keeps its server.
   */
  lemma StatusDecidesReady(actions: seq<Action>, i: nat, id: string, server: Server)
    requires Execute(actions).Some?
    requires var log := Execute(actions).value.log;
             i + 1 < |log| && log[i].Exchange? && log[i].call == GetServer(id) && log[i].reply == ServerIs(ServerFound(server))
    ensures var e, next := Execute(actions).value.log[i], Execute(actions).value.log[i + 1];
            Crashed(next) ||
            (next.Exchange? && next.uid == e.uid && next.call.Save? &&
             var p := next.call.machine;
             && (p.status.ready <==> Spells(server.status, "on") || Spells(server.status, "active") ||
                                     Spells(server.status, "running"))
             && (p.status.ready ==> ReadyFor(p, server))
             && p.status.serverID == server.id == id)
  {
    var w, run := CallAndNext(actions, i);
    var log := Execute(actions).value.log;
    Extends(w, Exchanged(log[i].call, log[i].reply));
    SucceedIsReady(run.m, server);
  }

  // ---- orders ----

  /** The spec of an order, from the object, the placement and the keys. */
  predicate OrderFor(m: Machine, p: Placement, spec: ServerSpec) {
    && spec.plan == m.spec.plan && spec.os == m.spec.os && spec.hostname == m.namespace + "-" + m.name
    && spec.project == Project(p) && spec.site == SiteFrom(p)
  }

  /** The keys of an order: none without a secret, or else those in the secret. */
  ghost predicate KeysFor(m: Machine, before: Event, keys: seq<string>)
    requires Calls(before, before.uid)
  {
    match m.spec.sshKeys
    case None => keys == [] && !before.call.GetKeys?
    case Some(ref) =>
      && before.call == GetKeys(SecretRef(if ref.namespace == "" then m.namespace else ref.namespace, ref.name))
      && before.reply.secret.Found?
      && KeyText(before.reply.secret.value).Some?
      && keys == SshKeys.Parse(KeyText(before.reply.secret.value).value)
  }

  /**
   * In every run, every CreateServer call, whatever its answer: its plan, operating system and host name are those of
   * the object that the same reconcile read first, its project and site those of the placement that it read right
   * before, and its keys those of the secret that it read before that, if the object names one, and none otherwise.
   */
  lemma OrdersFollowTheirReads(actions: seq<Action>, i: nat, spec: ServerSpec) returns (j: nat, m: Machine)
    requires Execute(actions).Some?
    requires var log := Execute(actions).value.log; i < |log| && log[i].Exchange? && log[i].call == CreateServer(spec)
    ensures var log := Execute(actions).value.log;
            && j + 1 < i && OneReconcile(log, j, i, log[i].uid, m)
            && log[i - 1].call.GetPlacement? && OrderFor(m, log[i - 1].reply.placement, spec)
            && KeysFor(m, log[i - 2], spec.sshKeys)
  {
    var log := Execute(actions).value.log;
    var w, run := CallAndNext(actions, i);
    j, m := ReconcileOf(actions, i, w);
  }

  // ---- attachments ----

  /** The next event, if the process does not crash: a call of the same reconcile. */
  ghost predicate NextCall(log: seq<Event>, i: nat, u: Uid) {
    i < |log| && !Crashed(log[i]) ==> Calls(log[i], u)
  }

  /** Behind a new server the memory has its id, and the patch comes next. */
  lemma NewServerIsHeld(w: seq<Turn>, run: Run, t: Turn)
    requires Recalls(w, run) && !run.Finished? && t.call == Pending(run) && t.call.CreateServer? && t.reply.Minted?
    ensures Opened(w + [t]) && |w + [t]| > 1 && Object(w + [t]).status.serverID == t.reply.id
    ensures Expected(w + [t]) == Ask(Save(Object(w + [t])))
  {
    Extends(w, t);
  }

  /** Behind that patch, whatever its answer, the cluster is read. */
  lemma NewServerIsRecorded(w: seq<Turn>, t: Turn)
    requires Opened(w) && |w| > 1 && Last(w).call.CreateServer? && Last(w).reply.Minted? && t.call.Save?
    requires Object(w).status.serverID != ""
    ensures Opened(w + [t]) && Object(w + [t]) == Object(w) && Expected(w + [t]) == Ask(GetCluster)
  {
    Extends(w, t);
  }

  /** And behind the cluster comes the attachment, if there is a VLAN. */
  lemma NewServerIsAttached(w: seq<Turn>, t: Turn)
    requires Opened(w) && |w| > 1 && Last(w).call.Save? && t.call.GetCluster?
    ensures Opened(w + [t])
    ensures Expected(w + [t]) == AfterNewServer(Object(w), t.reply.cluster)
  {
    Extends(w, t);
  }

  lemma RecordedNext(actions: seq<Action>, i: nat) returns (v: seq<Turn>)
    requires Execute(actions).Some?
    requires var log := Execute(actions).value.log;
             i < |log| && log[i].Exchange? && log[i].call.CreateServer? && log[i].reply.Minted?
    ensures var log := Execute(actions).value.log; var e := log[i];
            && v == Turns(log[..i + 1]) && Opened(v) && |v| > 1 && Last(v) == Exchanged(e.call, e.reply)
            && Object(v).status.serverID == e.reply.id != ""
            && (i + 1 < |log| ==> log[i + 1].uid == e.uid && Allows(Ask(Save(Object(v))), log[i + 1]))
  {
    var log := Execute(actions).value.log;
    var w, run := CallAndNext(actions, i);
    v := Turns(log[..i + 1]);
    NewServerIsHeld(w, run, Exchanged(log[i].call, log[i].reply));
  }

  lemma ClusterReadNext(actions: seq<Action>, i: nat) returns (v: seq<Turn>)
    requires Execute(actions).Some?
    requires var log := Execute(actions).value.log;
             i + 1 < |log| && log[i].Exchange? && log[i].call.CreateServer? && log[i].reply.Minted? && log[i + 1].Exchange?
    ensures var log := Execute(actions).value.log; var e := log[i];
            && v == Turns(log[..i + 2]) && Opened(v) && |v| > 1 && Last(v).call.Save?
            && Object(v).status.serverID == e.reply.id
            && Calls(log[i + 1], e.uid) && log[i + 1].call.Save? && log[i + 1].call.machine.status.serverID == e.reply.id
            && (i + 2 < |log| ==> log[i + 2].uid == e.uid && Allows(Ask(GetCluster), log[i + 2]))
  {
    var log := Execute(actions).value.log;
    var before := RecordedNext(actions, i);
    var w, run := CallAndNext(actions, i + 1);
    v := Turns(log[..i + 2]);
    NewServerIsRecorded(w, Exchanged(log[i + 1].call, log[i + 1].reply));
  }

  lemma AttachmentNext(actions: seq<Action>, i: nat)
    requires Execute(actions).Some?
    requires var log := Execute(actions).value.log;
             && i + 3 < |log| && log[i].Exchange? && log[i].call.CreateServer? && log[i].reply.Minted?
             && log[i + 1].Exchange? && log[i + 2].Exchange?
    ensures var log := Execute(actions).value.log; var e := log[i];
            && Calls(log[i + 2], e.uid) && log[i + 2].call.GetCluster? && log[i + 3].uid == e.uid
            && Attaches(log[i + 2].reply.cluster, e.reply.id, log[i + 3])
  {
    var log := Execute(actions).value.log;
    var before := ClusterReadNext(actions, i);
    var w, run := CallAndNext(actions, i + 2);
    NewServerIsAttached(w, Exchanged(log[i + 2].call, log[i + 2].reply));
  }

  /** The server is attached to the cluster's VLAN, if there is one; if there is not, the reconcile ends with its patch. */
  ghost predicate Attaches(cluster: Read<Cluster>, server: string, e: Event) {
    Crashed(e) ||
    (e.Exchange? &&
     if cluster.Found? && cluster.value.spec.vlan.Some? && cluster.value.status.vlanID.Some? then
       e.call == AttachServer(server, cluster.value.status.vlanID.value)
     else e.call.Save?)
  }

  /**
   * In every run, behind a successful CreateServer comes the patch with the new id, and behind that patch, whatever its
   * answer, the cluster is read; if it has a VLAN configuration and a VLAN by then, the call behind that attaches the new
   * server to that VLAN, and otherwise there is nothing to attach. Only a crash can come in between.
   */
  lemma NewServersJoinTheVlan(actions: seq<Action>, i: nat)
    requires Execute(actions).Some?
    requires var log := Execute(actions).value.log;
             i < |log| && log[i].Exchange? && log[i].call.CreateServer? && log[i].reply.Minted?
    ensures var log := Execute(actions).value.log; var e := log[i];
            && NextCall(log, i + 1, e.uid)
            && (i + 1 < |log| && log[i + 1].Exchange? ==>
                  && log[i + 1].call.Save? && log[i + 1].call.machine.status.serverID == e.reply.id
                  && NextCall(log, i + 2, e.uid)
                  && (i + 2 < |log| && log[i + 2].Exchange? ==>
                        && log[i + 2].call.GetCluster?
                        && NextCall(log, i + 3, e.uid)
                        && (i + 3 < |log| ==> Attaches(log[i + 2].reply.cluster, e.reply.id, log[i + 3]))))
  {
    var log := Execute(actions).value.log;
    var v := RecordedNext(actions, i);
    if i + 1 < |log| && log[i + 1].Exchange? {
      var w := ClusterReadNext(actions, i);
      if i + 2 < |log| && log[i + 2].Exchange? {
        var x, _ := CallAndNext(actions, i + 2);
        if i + 3 < |log| {
          AttachmentNext(actions, i);
          if log[i + 3].Exchange? {
            var y, _ := CallAndNext(actions, i + 3);
          }
        }
      }
    }
  }

  lemma FrontTurns(log: seq<Event>, i: nat) returns (v: seq<Turn>)
    requires i <= |log| && Turns(log[..i]) != []
    ensures i > 0 && v == Turns(log[..i - 1]) == Front(Turns(log[..i]))
  {
    assert log[..i][..i - 1] == log[..i - 1];
    v := Turns(log[..i - 1]);
  }

  lemma AttachmentJoins(actions: seq<Action>, i: nat, server: string, vlan: string) returns (w: seq<Turn>)
    requires Execute(actions).Some?
    requires var log := Execute(actions).value.log;
             i < |log| && log[i].Exchange? && log[i].call == AttachServer(server, vlan)
    ensures w == Turns(Execute(actions).value.log[..i]) && Opened(w) && Joins(w, vlan)
    ensures Object(w).status.serverID == server
  {
    var run;
    w, run := CallAndNext(actions, i);
  }

  /** An attachment follows the cluster that it was read from. */
  lemma AttachmentBefore(actions: seq<Action>, i: nat, server: string, vlan: string) returns (v: seq<Turn>)
    requires Execute(actions).Some?
    requires var log := Execute(actions).value.log;
             i < |log| && log[i].Exchange? && log[i].call == AttachServer(server, vlan)
    ensures var log := Execute(actions).value.log; var u := log[i].uid;
            && i > 1 && Calls(log[i - 1], u) && log[i - 1].call.GetCluster? && log[i - 1].reply.cluster.Found?
            && log[i - 1].reply.cluster.value.spec.vlan.Some?
            && log[i - 1].reply.cluster.value.status.vlanID == Some(vlan)
            && v == Turns(log[..i - 1]) && Opened(v) && Registered(v) && Object(v).status.serverID == server
  {
    var w := AttachmentJoins(actions, i, server, vlan);
    var j, m := ReconcileOf(actions, i, w);
    v := FrontTurns(Execute(actions).value.log, i);
  }

  /** And nothing else is ever attached: a server right behind its creation, to the VLAN that was read in between. */
  lemma OnlyNewServersJoin(actions: seq<Action>, i: nat, server: string, vlan: string)
    requires Execute(actions).Some?
    requires var log := Execute(actions).value.log;
             i < |log| && log[i].Exchange? && log[i].call == AttachServer(server, vlan)
    ensures var log := Execute(actions).value.log; var u := log[i].uid;
            && i > 2 && Calls(log[i - 1], u) && Calls(log[i - 2], u) && Calls(log[i - 3], u)
            && log[i - 3].call.CreateServer? && log[i - 3].reply == Minted(server) && log[i - 2].call.Save?
            && log[i - 1].call.GetCluster? && log[i - 1].reply.cluster.Found?
            && log[i - 1].reply.cluster.value.spec.vlan.Some?
            && log[i - 1].reply.cluster.value.status.vlanID == Some(vlan)
  {
    var v := AttachmentBefore(actions, i, server, vlan);
    var j, m := ReconcileOf(actions, i - 1, v);
  }

  // ---- uploads ----

  /** What is uploaded, given what was read of the cluster. */
  ghost predicate Uploads(machine: string, raw: string, cluster: Read<Cluster>, entry: string, text: string) {
    match cluster
    case Missing => false
    case Failed(_) => text == raw
    case Found(c) =>
      && (text != raw <==> c.spec.vlan.Some? && c.status.vlanVID.Some? && c.status.vlanVID.value != 0 &&
                           VlanAddress.ParseCIDR(c.spec.vlan.value.subnet).Some?)
      && (text != raw ==> UploadText.GainsVlan(machine, raw, c, entry, text))
  }

  /** The bootstrap secret was read, with this text as its value. */
  predicate ReadsRaw(e: Event, namespace: string, raw: string) {
    && e.Exchange? && Fits(e.call, e.reply) && e.call.GetBootstrap? && e.call.ref.namespace == namespace
    && e.reply.secret.Found? && "value" in e.reply.secret.value && raw == e.reply.secret.value["value"] != ""
  }

  lemma GatheredUploads(w: seq<Turn>, data: UserData) returns (entry: string)
    requires Opened(w) && Gathered(w, data)
    ensures Uploads(data.machine, data.raw, Last(w).reply.cluster, entry, Render(data))
  {
    entry := "";
    if data.cluster.Some? {
      entry := UploadText.VlanGoesIn(data.machine, data.raw, data.cluster.value);
      assert data == UserData(data.machine, data.raw, Some(data.cluster.value));
    }
  }

  lemma UploadGathers(actions: seq<Action>, i: nat, name: string, data: UserData) returns (w: seq<Turn>)
    requires Execute(actions).Some?
    requires var log := Execute(actions).value.log;
             i < |log| && log[i].Exchange? && log[i].call == CreateUserData(name, data)
    ensures w == Turns(Execute(actions).value.log[..i]) && Opened(w) && Gathered(w, data)
    ensures name == Object(w).name + "-" + Object(w).uid
  {
    var run;
    w, run := CallAndNext(actions, i);
  }

  /**
   * In every run, every CreateUserData call uploads the data of the bootstrap secret that the same reconcile read two
   * calls before, under the machine's name and uid. If the cluster, which it read in between, has a VLAN configuration, a
   * recorded VID other than 0 and an IPv4 subnet, the text gains one entry for that VID, the subnet's prefix length and
   * this machine's address; and otherwise, or if the cluster could not be read, it is that data unchanged.
   */
  lemma UploadsAreBootstrapData(actions: seq<Action>, i: nat, name: string, data: UserData)
    returns (j: nat, m: Machine, raw: string, entry: string)
    requires Execute(actions).Some?
    requires var log := Execute(actions).value.log;
             i < |log| && log[i].Exchange? && log[i].call == CreateUserData(name, data)
    ensures var log := Execute(actions).value.log;
            && j + 1 < i && OneReconcile(log, j, i, log[i].uid, m) && name == m.name + "-" + m.uid
            && ReadsRaw(log[i - 2], m.namespace, raw) && log[i - 1].call.GetCluster?
            && Uploads(m.name, raw, log[i - 1].reply.cluster, entry, Render(data))
  {
    var w := UploadGathers(actions, i, name, data);
    j, m := ReconcileOf(actions, i, w);
    raw := data.raw;
    entry := GatheredUploads(w, data);
  }

  // ---- errors ----

  /** The error with which the creation of a server, or of user data, fails. */
  function ErrorOf(e: Event): Option<string> {
    if !e.Exchange? || !e.reply.Refused? then None
    else if e.call.CreateServer? then Some("failed to create server: " + e.reply.error)
    else if e.call.CreateUserData? then Some("create user-data: " + e.reply.error)
    else None
  }

  /** The machine has failed for good, or not, with this error. */
  predicate Doomed(p: Machine, error: string, permanent: bool) {
    && !p.status.ready && (p.status.failureReason.Some? <==> permanent)
    && (permanent ==> p.status.failureReason == Some("CreateError") && p.status.failureMessage == Some(error))
  }

  predicate Permanent(error: string) {
    Contains(error, "SERVERS_OUT_OF_STOCK") || Contains(error, "No stock availability")
  }

  lemma ErrorIsExpected(w: seq<Turn>, run: Run, t: Turn, e: Event)
    requires Recalls(w, run) && Shape(run) && !run.Finished? && t.call == Pending(run) && Is(e, e.uid, t) && ErrorOf(e).Some?
    ensures Opened(w + [t]) && |w + [t]| > 1 && !Mints(t) && InProgress(Object(w + [t]))
    ensures Expected(w + [t]) == Fail(Object(w + [t]), ErrorOf(e).value)
  {
    Extends(w, t);
  }

  lemma FailDooms(m: Machine, error: string, p: Machine)
    requires InProgress(m) && States(Fail(m, error).machine, Fail(m, error).claim, p)
    ensures Doomed(p, error, Permanent(error))
  {}

  lemma FailEnds(v: seq<Turn>, t: Turn, error: string)
    requires Opened(v) && !Mints(Last(v)) && Expected(v) == Fail(Object(v), error) && t.call.Save?
    ensures Expected(v + [t]) ==
            Close(if Permanent(error) then Returned(300, if t.reply.Refused? then Some(t.reply.error) else None)
                  else Returned(0, Some(error)))
  {
    Extends(v, t);
  }

  /**
   * In every run, a failed creation is followed by the deferred patch, unless the process crashes; and it fails the
   * machine for good, with this error as its message, if and only if the error names one of the two permanent codes. The
   * result is then a retry in five minutes, and otherwise the error itself.
   */
  lemma ErrorsDecideFailure(actions: seq<Action>, i: nat, error: string)
    requires Execute(actions).Some?
    requires var log := Execute(actions).value.log; i + 1 < |log| && ErrorOf(log[i]) == Some(error)
    ensures var log := Execute(actions).value.log;
            Crashed(log[i + 1]) ||
            (Calls(log[i + 1], log[i].uid) && log[i + 1].call.Save? &&
             Doomed(log[i + 1].call.machine, error, Permanent(error)) &&
             (i + 2 < |log| ==>
                Crashed(log[i + 2]) ||
                (log[i + 2].Closed? && log[i + 2].outcome == Some(
                   if Permanent(error) then
                     Returned(300, if log[i + 1].reply.Refused? then Some(log[i + 1].reply.error) else None)
                   else Returned(0, Some(error))))))
  {
    var log := Execute(actions).value.log;
    var w, run := CallAndNext(actions, i);
    var t: Turn := Exchanged(log[i].call, log[i].reply);
    ErrorIsExpected(w, run, t, log[i]);
    if log[i + 1].Exchange? {
      var v, _ := CallAndNext(actions, i + 1);
      FailDooms(Object(v), error, log[i + 1].call.machine);
      FailEnds(v, Exchanged(log[i + 1].call, log[i + 1].reply), error);
    }
  }
}
