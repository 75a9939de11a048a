/**
 * The machine reconciler as its history shows it: what a reconcile does next, told by the calls that it has made and by
 * the answers that it got. Nothing is kept in between: the arguments of every call, the object that every patch writes
 * and the result of the reconcile are put together from those answers alone. MachineHistory proves that every reconcile
 * of every run does this and nothing else.
 */
module MachineLaws {
  import opened Prelude
  import opened Text
  import opened Conditions
  import opened Api
  import opened UserData
  import opened MachineFlow
  import SshKeys

  /** A call and its answer. */
  datatype Exchanged = Exchanged(call: Call, reply: Reply)
  type Turn = t: Exchanged | Fits(t.call, t.reply) witness Exchanged(GetMachine, MachineIs(Missing))

  /** What a reconcile does next: one more call; the deferred patch, with what is to be reported and returned; or it ends. */
  datatype Next = Ask(call: Call) | Patch(machine: Machine, claim: Option<Claim>, outcome: Outcome) | Close(outcome: Outcome)

  /** A report on the instance. */
  datatype Claim = Claim(status: Truth, reason: Reason, message: string)

  function Last(w: seq<Turn>): Turn
    requires w != []
  {
    w[|w| - 1]
  }

  function Front(w: seq<Turn>): seq<Turn>
    requires w != []
  {
    w[..|w| - 1]
  }

  /** The object was read. */
  predicate Opened(w: seq<Turn>) {
    w != [] && w[0].call.GetMachine? && w[0].reply.machine.Found?
  }

  /** The object as it was read, with the ids that later answers brought or took. */
  function Object(w: seq<Turn>): Machine
    requires Opened(w)
    decreases |w|
  {
    if |w| == 1 then w[0].reply.machine.value else Effect(Object(Front(w)), Last(w))
  }

  function Effect(m: Machine, t: Turn): Machine {
    match t.call
    case GetServer(_) => if t.reply.read.ServerFailed? then m.(status := m.status.(serverID := "")) else m
    case CreateUserData(_, _) => if t.reply.Minted? then m.(status := m.status.(userDataID := t.reply.id)) else m
    case CreateServer(_) => if t.reply.Minted? then m.(status := m.status.(serverID := t.reply.id)) else m
    case _ => m
  }

  /** The owner, which is read second. */
  function OwnerOf(w: seq<Turn>): Option<Owner> {
    if |w| > 1 && w[1].call.GetOwner? && w[1].reply.owner.Found? then Some(w[1].reply.owner.value) else None
  }

  /** The bootstrap secret has been read: the checks are over, and there is no server. */
  predicate Provisioning(w: seq<Turn>)
    decreases |w|
  {
    w != [] && (Last(w).call.GetBootstrap? || Provisioning(Front(w)))
  }

  // ---- ways to end ----

  /** Nothing is wrong; look again in half a minute. */
  function Wait(m: Machine): Next {
    Patch(m, Some(Claim(ConditionFalse, InstanceNotReady, "Server is being provisioned")), Returned(30, None))
  }

  /** An error fails the machine for good if it names one of two codes, and is returned otherwise. */
  function Fail(m: Machine, error: string): Next {
    var claim := Some(Claim(ConditionFalse, InstanceProvisionFailed, error));
    if Contains(error, "SERVERS_OUT_OF_STOCK") || Contains(error, "No stock availability") then
      Patch(GivenUp(m, error), claim, Returned(300, None))
    else Patch(m, claim, Returned(0, Some(error)))
  }

  function GivenUp(m: Machine, message: string): Machine {
    m.(status := m.status.(ready := false, failureReason := Some("CreateError"), failureMessage := Some(message)))
  }

  /** A running server makes the machine Ready, under the server's addresses. */
  function Succeed(m: Machine, server: Server): Next {
    var id := "latitude://" + server.id;
    var ips := seq(|server.ips|, i requires 0 <= i < |server.ips| => Address(ExternalIP, server.ips[i]));
    var names := if server.hostname == "" then [] else [Address(HostName, server.hostname)];
    Patch(m.(spec := m.spec.(providerID := Some(id)),
           status := m.status.(ready := true, providerID := id, serverID := server.id, addresses := ips + names)),
        Some(Claim(ConditionTrue, InstanceIsReady, "Instance is ready")), Returned(0, None))
  }

  function Leave(m: Machine): Next {
    Patch(m, None, Returned(0, None))
  }

  /** A nil pointer is dereferenced; the deferred patch is made all the same. */
  function Panic(m: Machine): Next {
    Patch(m, None, Panicked)
  }

  // ---- the object, its owner, and the checks ----

  function AfterRead(m: Machine): Next {
    if m.paused then Leave(m)
    else if m.deleting then (if m.status.serverID != "" then Ask(DeleteServer(m.status.serverID)) else Release(m))
    else if !m.finalizer then Leave(m.(finalizer := true))
    else if m.status.ready || m.status.failureReason.Some? then Leave(m)
    else Ask(GetOwner)
  }

  /** No server is left: the user data goes, and then the finalizer. */
  function Release(m: Machine): Next {
    if m.status.userDataID != "" then Ask(DeleteUserData(m.status.userDataID)) else Leave(m.(finalizer := false))
  }

  function AfterOwner(m: Machine, owner: Read<Owner>): Next {
    match owner
    case Failed(e) => Patch(m, None, Returned(0, Some("failed to get owner machine: " + e)))
    case Missing => Patch(m, None, Returned(30, None))
    case Found(o) => Ask(if o.controlPlane then GetPlacement else GetCluster)
  }

  predicate ControlPlaneFailed(siblings: seq<Sibling>) {
    exists i | 0 <= i < |siblings| ::
      siblings[i].machine.status.failureReason.Some? && siblings[i].owner.Found? && siblings[i].owner.value.controlPlane
  }

  /** A worker gives up if a control plane of its namespace has failed. */
  function AfterSiblings(m: Machine, siblings: Read<seq<Sibling>>): Next {
    if siblings.Found? && ControlPlaneFailed(siblings.value) then
      Patch(GivenUp(m, "Control plane provisioning failed, cannot provision worker nodes"),
            Some(Claim(ConditionFalse, InstanceProvisionFailed, "Control plane failed")), Returned(0, None))
    else Ask(GetPlacement)
  }

  /** The project is the cluster's. */
  function Project(p: Placement): string {
    if p.forProject.Found? && p.forProject.value.spec.project.Some? then p.forProject.value.spec.project.value else ""
  }

  /** The site is the owner's failure domain, or else the cluster's location. */
  function SiteFrom(p: Placement): string {
    match p.owner
    case Failed(_) => ""
    case Found(Owner(_, _, Some(domain), _)) => domain
    case _ => if p.forSite.Found? then p.forSite.value.spec.location else ""
  }

  /** What a spec and its placement lack. */
  function Lacks(m: Machine, p: Placement): seq<string> {
    (if m.spec.os == "" then ["operatingSystem is required"] else [])
    + (if m.spec.plan == "" then ["plan is required"] else [])
    + (if Project(p) == "" then ["projectID is required"] else [])
    + (if SiteFrom(p) == "" then ["site is required"] else [])
  }

  function AfterChecks(m: Machine, owner: Option<Owner>, p: Placement): Next {
    if Lacks(m, p) != [] then
      Patch(m, Some(Claim(ConditionFalse, InstanceProvisionFailed, "validation failed: " + Join(Lacks(m, p), ", "))),
          Returned(0, None))
    else if m.status.serverID != "" then Ask(GetServer(m.status.serverID))
    else Supply(m, owner)
  }

  // ---- the server on record ----

  /** The word in small letters, read with any letters big or small. */
  predicate Spells(status: string, word: string) {
    |status| == |word| && forall i :: 0 <= i < |word| ==> status[i] == word[i] || status[i] as int == word[i] as int - 32
  }

  predicate MeansRunning(status: string) {
    Spells(status, "on") || Spells(status, "active") || Spells(status, "running")
  }

  /** m is the object behind the answer: without its server if GetServer failed. */
  function AfterPoll(m: Machine, owner: Option<Owner>, read: ServerRead): Next {
    match read
    case ServerFailed(_) => Supply(m, owner)
    case ServerBlank => Panic(m)
    case ServerFound(server) => if MeansRunning(server.status) then Succeed(m, server) else Wait(m)
  }

  // ---- a new server ----

  function Supply(m: Machine, owner: Option<Owner>): Next {
    if owner.None? || owner.value.dataSecret.None? then Wait(m)
    else Ask(GetBootstrap(SecretRef(m.namespace, owner.value.dataSecret.value)))
  }

  /** The bootstrap data of a secret: none yet, an error, or a text. */
  function Raw(secret: Read<map<string, string>>): Option<Result<string>> {
    match secret
    case Missing => None
    case Failed(e) => Some(Err("failed to get bootstrap data secret: " + e))
    case Found(data) =>
      if "value" !in data then Some(Err("error retrieving bootstrap data: secret value key is missing"))
      else if data["value"] == "" then Some(Err("error retrieving bootstrap data: secret value is empty"))
      else Some(Ok(data["value"]))
  }

  function AfterBootstrap(m: Machine, secret: Read<map<string, string>>): Next {
    match Raw(secret)
    case None => Wait(m)
    case Some(Err(e)) => Fail(m, "failed to get bootstrap data: " + e)
    case Some(Ok(_)) => Ask(GetCluster)
  }

  /** The raw data, and the cluster that decides whether the VLAN settings go in. */
  function AfterSettings(m: Machine, secret: Read<map<string, string>>, cluster: Read<Cluster>): Next {
    if cluster.Missing? then Panic(m)
    else if m.status.userDataID != "" then Equip(m)
    else if Raw(secret).Some? && Raw(secret).value.Ok? then
      Ask(CreateUserData(m.name + "-" + m.uid,
                         UserData(m.name, Raw(secret).value.value, if cluster.Found? then Some(cluster.value) else None)))
    else Panic(m)
  }

  /** There is user data: the keys are next, if the object names a secret for them. */
  function Equip(m: Machine): Next {
    match m.spec.sshKeys
    case None => Ask(GetPlacement)
    case Some(ref) => Ask(GetKeys(SecretRef(if ref.namespace == "" then m.namespace else ref.namespace, ref.name)))
  }

  /** The text that holds the keys, under the first of four names. */
  function KeyText(data: map<string, string>): Option<string> {
    if "ssh-key-ids" in data then Some(data["ssh-key-ids"])
    else if "sshKeys" in data then Some(data["sshKeys"])
    else if "ssh_keys" in data then Some(data["ssh_keys"])
    else if "keys" in data then Some(data["keys"])
    else None
  }

  function KeyList(ref: SecretRef, secret: Read<map<string, string>>): Result<seq<string>> {
    match secret
    case Missing => Err("SSH key secret " + ref.namespace + "/" + ref.name + " not found")
    case Failed(e) => Err("failed to get SSH key secret: " + e)
    case Found(data) =>
      if KeyText(data).Some? then Ok(SshKeys.Parse(KeyText(data).value))
      else Err("SSH key secret " + ref.namespace + "/" + ref.name + " does not contain any of the expected keys"
               + " (ssh-key-ids, sshKeys, ssh_keys, keys)")
  }

  function AfterKeys(m: Machine, ref: SecretRef, secret: Read<map<string, string>>): Next {
    match KeyList(ref, secret)
    case Err(e) => Fail(m, "failed to get SSH keys: " + e)
    case Ok(_) => Ask(GetPlacement)
  }

  /** The keys of an order: those that were read right before its placement, if there were any to read. */
  function KeysRead(w: seq<Turn>): seq<string> {
    if w != [] && Last(w).call.GetKeys? && KeyList(Last(w).call.ref, Last(w).reply.secret).Ok? then
      KeyList(Last(w).call.ref, Last(w).reply.secret).value
    else []
  }

  function Order(m: Machine, keys: seq<string>, p: Placement): Next {
    Ask(CreateServer(ServerSpec(Project(p), m.spec.plan, m.spec.os, SiteFrom(p), m.namespace + "-" + m.name, keys,
                                m.status.userDataID)))
  }

  /** The new server joins the VLAN of the cluster, if there is one by now. */
  function AfterNewServer(m: Machine, cluster: Read<Cluster>): Next {
    match cluster
    case Missing => Panic(m)
    case Failed(_) => Wait(m)
    case Found(c) =>
      if c.spec.vlan.Some? && c.status.vlanID.Some? then Ask(AttachServer(m.status.serverID, c.status.vlanID.value))
      else Wait(m)
  }

  // ---- all together ----

  /** The cluster is read up to three times: for the check, for the user data, and for the attachment. */
  function AfterCluster(w: seq<Turn>): Next
    requires Opened(w) && Last(w).call.GetCluster?
  {
    var m, cluster, before := Object(w), Last(w).reply.cluster, Last(Front(w));
    match before.call
    case GetOwner => Ask(if cluster.Found? then ListSiblings else GetPlacement)
    case GetBootstrap(_) => AfterSettings(m, before.reply.secret, cluster)
    case _ => AfterNewServer(m, cluster)
  }

  /** The last answer is that of the deferred patch, not of one that records a new id. */
  predicate Final(w: seq<Turn>) {
    |w| > 1 && Last(w).call.Save? &&
    !((Last(Front(w)).call.CreateUserData? || Last(Front(w)).call.CreateServer?) && Last(Front(w)).reply.Minted?)
  }

  /** A new id has been recorded, or the patch that should have done so has failed; there is no difference. */
  function AfterPatch(w: seq<Turn>): Next
    requires Opened(w) && |w| > 1
  {
    var m := Object(w);
    if Last(Front(w)).call.CreateUserData? then Equip(m)
    else if m.status.serverID == "" then Wait(m)
    else Ask(GetCluster)
  }

  function Onward(w: seq<Turn>): Next
    requires Opened(w)
  {
    var m, t := Object(w), Last(w);
    match t.call
    case GetMachine => AfterRead(m)
    case GetOwner => AfterOwner(m, t.reply.owner)
    case GetCluster => AfterCluster(w)
    case ListSiblings => AfterSiblings(m, t.reply.siblings)
    case GetPlacement =>
      if Provisioning(w) then Order(m, KeysRead(Front(w)), t.reply.placement)
      else AfterChecks(m, OwnerOf(w), t.reply.placement)
    case GetServer(_) => AfterPoll(m, OwnerOf(w), t.reply.read)
    case GetBootstrap(_) => AfterBootstrap(m, t.reply.secret)
    case GetKeys(ref) => AfterKeys(m, ref, t.reply.secret)
    case CreateUserData(_, _) => if t.reply.Minted? then Ask(Save(m)) else Fail(m, "create user-data: " + t.reply.error)
    case CreateServer(_) => if t.reply.Minted? then Ask(Save(m)) else Fail(m, "failed to create server: " + t.reply.error)
    case Save(_) => if |w| > 1 then AfterPatch(w) else Leave(m)
    case AttachServer(_, _) => Wait(m)
    case DeleteServer(_) =>
      if t.reply.Accepted? then Release(m)
      else Patch(m, Some(Claim(ConditionFalse, InstanceDeletionFailed, t.reply.error)), Returned(30, None))
    case DeleteUserData(_) => Leave(m.(finalizer := false))
  }

  /** The error of the deferred patch is returned unless there is another one. */
  function Settle(outcome: Outcome, reply: Reply): Outcome {
    match outcome
    case Returned(after, None) => if reply.Refused? then Returned(after, Some(reply.error)) else outcome
    case _ => outcome
  }

  /** What a reconcile does behind these answers. */
  function Expected(w: seq<Turn>): Next
    requires w != [] ==> w[0].call.GetMachine?
  {
    if w == [] then Ask(GetMachine)
    else if !Opened(w) then Close(Returned(0, if w[0].reply.machine.Failed? then Some(w[0].reply.machine.error) else None))
    else if !Final(w) then Onward(w)
    else match Onward(Front(w))
      case Patch(_, _, outcome) => Close(Settle(outcome, Last(w).reply))
      case _ => Close(Panicked)
  }
}
