# Cluster API Provider Latitude.sh: a verified model

The provider consists of two Kubernetes reconcilers. Each reads a persisted object, calls an unreliable cloud, changes
the object in memory and writes it back. The model keeps the three levels apart and connects them.

* **The protocols.** `MachineFlow` and `ClusterFlow` give each reconcile as a conversation: `Run` says where it stands,
  with the in-memory object; `Pending` is the one call it waits for; `Resume` takes the answer. The nil dereferences of
  a cluster that is not there, and of a server reply without attributes, are the outcome `Died`, behind which the
  deferred patch still runs. `MachineSteps` and `ClusterSteps` say what one
  answer can change.
* **The code.** `MachineScope`, `MachineController`, `ClusterScope` and `ClusterController` hold the reconcilers and the
  cloud client in their own form: classes whose fields the methods update, loops, early returns. A `Session` can be
  asked only what the protocol waits for, records every answer, and `Reconcile` of either controller is proved to hold
  the conversation to its end with the protocol's result. `SshKeys`, `MachineIndex`, `VlanAddress`, `CloudInit`,
  `EndpointChoice` and `Conditions` hold the algorithms.
* **The world.** `Fleet` runs the machine protocol on many objects against an adversary who chooses every answer within
  stated contracts (`Truthful`), lets calls fail that took effect (`SideEffect`), loses patches, crashes the process
  between any two calls, deletes servers, and pauses, edits and deletes objects. `ClusterFleet` adds the clusters and
  the VLANs, around the unchanged fleet. Theorems speak of `Execute(actions)` for every sequence of actions.
* **The history.** `MachineLaws` and `ClusterLaws` say what a reconcile does next as a function of the answers that it
  has had, in the source's literal words and numbers and with no object kept in memory. `MachineHistory` and
  `ClusterHistory` prove that every event of every run is what these say; `MachinePromises` and `ClusterPromises` read
  the single promises off.

The contracts: a patch is one atomic write of finalizer, provider id and status, and may fail; reads return what is
persisted, or fail; one reconcile runs at a time per controller; ids of servers and VLANs are non-empty and never used
twice; a server or VLAN that is returned exists; the owner of a LatitudeMachine, with its control-plane label and its
cluster, and the owner of a LatitudeCluster do not change; in a list of the Machines of a cluster exactly the control
planes refer to the LatitudeMachine names that are theirs, and these names are that cluster's; a LatitudeMachine is owned
by the Machine that refers to its name; a cluster's spec is fixed, VIDs are immutable and a successful VLAN list is
complete; nobody else uses descriptions that begin with `capl-`. Reading a LatitudeMachine by name returns whatever is
persisted under it: that the endpoint comes from a control plane follows from the label check in the code.

## Where the code says less than its comments

* One server per machine: any error of GetServer clears the server id (internal/controller/latitudemachine_controller.go:269-272),
  also when the server lives, so the unconditional claim fails. `ServersAreBounded` gives the bound that always holds, and
  `ServersPileUp` attains it for every number of failed calls. `OwnedUnlessAccident` says exactly when a live server has
  lost its owner, `NoServerIsOrphaned` what suffices for that never to happen.
* Unique VLAN addresses per machine (internal/controller/latitudemachine_controller.go:768): `IndicesCollide` names two
  machine names with the same address.
  `NamesShareAddress` says exactly which names do.
* A subnet longer than /24 need not contain the address: `AddressOutsideSubnet` gives one, `AddressIsUsable` says exactly
  when it does.
* The description is meant to make a VLAN unique (internal/controller/latitudecluster_controller.go:297-298):
  `DashesConfuseDescriptions` names two clusters that share it, `DescriptionsCollide` says exactly which do, and
  `SharingIsShifting` that exactly these can end up with one VLAN.
* The fallback to an internal IP (internal/controller/latitudecluster_controller.go:484-493) repeats the first search:
  `LoopsAreOneSearch`.
* The ClusterReady condition says less than the Ready status: it turns False when the endpoint is set
  (internal/controller/latitudecluster_controller.go:511) and when a reconcile of a Ready cluster fails, and only
  becoming Ready sets it to True. `ClusterReadyIsTrue` says exactly when it is; `EndpointCanBeSet` and
  `ReadyCanReportFalse` give a run for each cause.
* The check for a failed control plane looks at the namespace, not at the cluster
  (internal/controller/latitudemachine_controller.go:400-402): `CheckIsByCluster` says for which lists that is the same,
  and `SpreadIsByNamespace` that a failure can spread to a worker exactly if they share a namespace, whatever their
  clusters.
* A cluster may ask for a VID (api/v1beta1/latitudecluster_types.go:24-26), but `CreateVLAN` does not send it:
  `RequestedVidIsIgnored`, `RequestIsMetByChance` and, for any cluster and any other VID, `AnyVidIsRecorded`.
* A deleted cluster drops the error of `DeleteVLAN`, and knows only the VLAN on its record: `NoVlanIsOrphaned` says
  what suffices for it to leave none behind.

## Model

| member | source | states |
|---|---|---|
| `ServerCount.ServersAreBounded` | internal/controller/latitudemachine_controller.go:266-356 | In every run, with GetServer failing, patches lost and the process crashing at will: CreateServer calls that succeeded for one object <= 1 + failed GetServer calls + reconciles that created a server and saw no later patch succeed |
| `ServerCount.IssuedServersAreBounded` | internal/controller/latitudemachine_controller.go:266-356 | All servers ever made for one object, also those whose creation was answered with an error, <= that bound + refused CreateServer calls |
| `ServerCount.AlwaysAccounted` | internal/controller/latitudemachine_controller.go:266-356 | The potential behind that bound: with no server id in memory, or none persisted and none unsaved, the servers made never exceed the accidents |
| `ServerLeak.ServersPileUp` | internal/controller/latitudemachine_controller.go:266-274 | Both bounds are attained: for every n some run without crashes or lost servers and answers makes n + 1 servers for one object, all alive at its end, with n failed GetServer calls and no other accident |
| `PromptPatch.CreationsArePatchedNext` | internal/controller/latitudemachine_controller.go:319-356 | The call right behind a successful CreateServer or CreateUserData is the patch that carries the new id, unless the process crashes in between |
| `ServerOwnership.ServersAreNotShared` | internal/controller/latitudemachine_controller.go:346-356 | In every run, two machines never have the same server on record |
| `ServerOwnership.NoServerIsOrphaned` | internal/controller/latitudemachine_controller.go:226-274 | If GetServer fails only for servers that are gone, a failed create makes nothing, and no reconcile ends with its server unsaved: every live server belongs to an existing object with finalizer and is the one on its record (or in the memory of the reconcile that just made it); so a vanished object leaves none behind |
| `ServerLoss.OwnedUnlessAccident` | internal/controller/latitudemachine_controller.go:226-356 | In every run, a live server belongs to an existing object with finalizer, on its record or in the memory that made it, if and only if no patch wrote over its id, no reconcile ended without saving it, and its creation was not answered with an error; a lost owner never returns |
| `ServerLoss.OwnedBehind` | internal/controller/latitudemachine_controller.go:226-356 | The same per step: a live server has an owner behind a step if and only if it had one and the step is none of the three accidents |
| `ServerOwnership.RecordKeepsFinalizer` | internal/controller/latitudemachine_controller.go:226-250 | In every run, a persisted server id comes with a persisted finalizer, until the object is being deleted and the server is gone |
| `FailureProvenance.ControlPlaneFailsByItself` | internal/controller/latitudemachine_controller.go:136-175 | In every interleaving, a failed control-plane machine had a permanent error of its own and has no server on record |
| `FailureProvenance.WorkerFailsWithCause` | internal/controller/latitudemachine_controller.go:142-153 | A failed worker had a permanent error of its own, or listed a failed control-plane machine of its namespace which had had its own permanent error before that |
| `FailureProvenance.NoServerForFailedControlPlane` | internal/controller/latitudemachine_controller.go:142-164 | While a failed control-plane machine exists, no worker reconcile of its namespace is about to create a server, unless a read of its control-plane check failed |
| `FailureSpread.CheckIsByCluster` | internal/controller/latitudemachine_controller.go:400-427 | The check over a list agrees with a check by the worker's own cluster, whatever becomes of the listed machines, if and only if no readable control plane of the list belongs to another cluster |
| `FailureSpread.SpreadIsByNamespace` | internal/controller/latitudemachine_controller.go:142-153 | For a control-plane machine and a worker, of any clusters: some run makes the worker fail because of that machine, by the list answer that shows it, without an error of its own, if and only if they are in one namespace |
| `FailureProvenance.OrderErrorIsPermanent` | internal/controller/latitudemachine_controller.go:346-349 | A failed order is permanent exactly when the cloud's own error text carries a permanent code |
| `Readiness.ReadyIsBacked` | internal/controller/latitudemachine_controller.go:188-210 | A persisted Ready machine has not failed, has a server id, providerID latitude://id in spec and status, and an earlier GetServer reply gave that server the status on, active or running, letter case aside; the addresses are that reply's IPs in order and then its host name |
| `MachineHistory.HistoryDecides` | internal/controller/latitudemachine_controller.go:50-366 | In every run, each event of a machine's reconcile is decided by the answers that the same reconcile got before it: every call with all its arguments, every patched object up to the time of a report, and the result, unless the process crashes instead |
| `MachinePromises.StatusDecidesReady` | internal/controller/latitudemachine_controller.go:266-282 | Behind a GetServer call that found the server comes the deferred patch; it makes the machine Ready, with that server's id and addresses, if and only if the status is on, active or running, letter case aside; with any other status the machine is not Ready and keeps the server |
| `MachinePromises.OrdersFollowTheirReads` | internal/controller/latitudemachine_controller.go:329-346 | Every CreateServer call carries plan, operating system and host name of the object that the same reconcile read, project and site of the placement read right before, and the keys parsed from the key secret read before that (its namespace defaulting to the object's); none if the object names no secret |
| `MachinePromises.NewServersJoinTheVlan` | internal/controller/latitudemachine_controller.go:351-363 | Behind a successful CreateServer comes the patch with its id, behind that patch, accepted or not, the cluster is read, and if it has a VLAN configuration and a VLAN, the next call attaches exactly that server to exactly that VLAN; only a crash comes in between |
| `MachinePromises.OnlyNewServersJoin` | internal/controller/latitudemachine_controller.go:663-704 | Every attachment is of a server that the same reconcile created three calls before, to the VLAN of the cluster read right before |
| `MachinePromises.UploadsAreBootstrapData` | internal/controller/latitudemachine_controller.go:286-314 | Every upload is the value of a bootstrap secret of the object's namespace that the same reconcile read two calls before, under the machine's name and uid; it differs from it if and only if the cluster read in between has a VLAN configuration, a recorded VID other than 0 and an IPv4 subnet, and then gains one entry for that VID, prefix length and this machine's address; it is unchanged if the cluster could not be read |
| `MachinePromises.ErrorsDecideFailure` | internal/controller/latitudemachine_controller.go:166-181 | A failed creation of a server or of user data fails the machine, with that error as its message, if and only if the error names SERVERS_OUT_OF_STOCK or No stock availability; the result is then a retry in five minutes, and otherwise the error |
| `Permanence.ReadyAndFailedAreFinal` | internal/controller/latitudemachine_controller.go:104-113 | However a run continues, Ready stays with its server and excludes Failed, and Failed stays and excludes Ready |
| `Permanence.UserDataIsFinal` | internal/controller/latitudemachine_controller.go:304-327 | A user data id on record is never cleared or replaced |
| `UserDataHistory.UserDataIsBounded` | internal/controller/latitudemachine_controller.go:304-327 | In every run, user data created for one object <= 1 + replies without an id + reconciles that created user data and saw no later patch succeed |
| `UserDataHistory.ServersUseRecordedData` | internal/controller/latitudemachine_controller.go:336-346 | A server on record was ordered for that machine with the user data id on record, its host name, and a complete spec |
| `OrderHistory.OrdersUseRecordedData` | internal/controller/latitudemachine_controller.go:304-346 | In every run, every CreateServer call, answered or not, carries user data that an earlier CreateUserData of that machine made, and that every earlier successful patch with user data put on record |
| `OrderHistory.OrderMatchesRecord` | internal/controller/latitudemachine_controller.go:304-346 | At the moment of a CreateServer call its user data is the one on record, whenever there is one |
| `UserData.UploadIsRawPlusOneEntry` | internal/controller/latitudemachine_controller.go:707-765 | The uploaded text is the raw data with one insertion, which is not empty if and only if the cluster has a VLAN, a VID other than 0 and an IPv4 subnet, and then holds the one entry for the machine's VLAN settings |
| `UploadText.VlanGoesIn` | internal/controller/vlan_config.go:61-97 | Exactly for such a cluster the text changes; its lines are then those of the raw data with one more behind the first runcmd: line (or a section at the end, if no line follows one), and a YAML scanner reads in that line a command that declares the interface for that VID, address and prefix length and announces the address |
| `MachineConditions.InstanceReadyMeansReady` | internal/controller/latitudemachine_controller.go:580-616 | In every run: one condition per type; InstanceReady True implies Ready; Ready without deletion implies InstanceReady True |
| `Progress.ReconcileLowersRank` | internal/controller/latitudemachine_controller.go:98-214 | Each reconcile in which every answer is cooperative lowers the rank (no finalizer, no live server, live server not accepted, Ready) |
| `Progress.ThreeReconcilesReachReady` | internal/controller/latitudemachine_controller.go:98-214 | From any reachable state of an unpaused, undeleted, unfailed machine, three cooperative reconciles reach Ready, whatever else happens before each of them that leaves the object and its server alone, and even if GetServer denies servers made before |
| `Cooperation.CooperationReachesReady` | internal/controller/latitudemachine_controller.go:98-214 | Such reconciles exist: for a complete spec and a namespace without failed control plane there are legal cooperative answers throughout, and they make the machine Ready |
| `MachineSteps.EveryChange` | internal/controller/latitudemachine_controller.go:95-366 | What any one answer may change in the in-memory object, and in which order the calls come |
| `MachineSteps.EveryReconcileEnds` | internal/controller/latitudemachine_controller.go:52-366 | Whatever the answers, a reconcile waits for at most 17; the reads behind one cluster, behind project and site, and behind the namespace list with its owners are one answer each |
| `FleetInvariant.AlwaysSound` | internal/controller/latitudemachine_controller.go:65-92 | How in-memory and persisted object relate in every run: identity, finalizer, user data, server id unless unsaved, Ready and Failed |
| `MachineController.Reconcile` | internal/controller/latitudemachine_controller.go:52-93 | The imperative reconcile makes exactly the calls of the protocol, with the same arguments and memory, and returns its outcome |
| `MachineController.PatchDeferred` | internal/controller/latitudemachine_controller.go:71-79 | The deferred patch runs on every return and on a panic; its error is returned only if there is no other |
| `MachineController.ReconcileNormal` | internal/controller/latitudemachine_controller.go:95-123 | Finalizer, Ready and Failed end the reconcile early; otherwise the owner is read |
| `MachineController.Provide` | internal/controller/latitudemachine_controller.go:125-220 | Control-plane check for workers, validation, server, and the resulting status |
| `MachineController.Settle` | internal/controller/latitudemachine_controller.go:163-220 | Each result of reconcileServer becomes the status, condition, delay and error that the protocol prescribes |
| `MachineController.SettleError` | internal/controller/latitudemachine_controller.go:165-180 | A permanent error fails the machine and asks for five minutes; any other is reported and returned |
| `MachineController.SettleRunning` | internal/controller/latitudemachine_controller.go:188-219 | A running server sets provider id, Ready, server id, addresses and condition |
| `MachineController.CollectAddresses` | internal/controller/latitudemachine_controller.go:195-210 | The two-part loop gives the IPs as ExternalIP in order, then the host name if there is one |
| `MachineController.ReconcileDelete` | internal/controller/latitudemachine_controller.go:223-253 | Server, user data, finalizer: a failed server deletion keeps the finalizer and reports |
| `MachineController.ReleaseUserData` | internal/controller/latitudemachine_controller.go:238-252 | The finalizer goes whether or not the user data could be deleted |
| `MachineController.ReconcileServer` | internal/controller/latitudemachine_controller.go:255-366 | Poll, bootstrap data, user data, order: the run it leaves is the one of its result |
| `MachineController.CheckServer` | internal/controller/latitudemachine_controller.go:266-284 | Any GetServer error clears the server id; only on, active or running is accepted |
| `MachineController.ReconcileUserData` | internal/controller/latitudemachine_controller.go:297-327 | Injection errors fall back to the raw data; a nil cluster panics |
| `MachineController.EnsureUserData` | internal/controller/latitudemachine_controller.go:304-327 | Recorded user data is reused; a new one is recorded by a patch at once |
| `MachineController.OrderServer` | internal/controller/latitudemachine_controller.go:329-366 | Keys, then the order |
| `MachineController.CreateServer` | internal/controller/latitudemachine_controller.go:335-352 | The order, and the record of its server id before anything else |
| `MachineController.PlaceOrder` | internal/controller/latitudemachine_controller.go:335-349 | The server spec is built from the machine, its placement, keys and user data id |
| `MachineController.RecordServer` | internal/controller/latitudemachine_controller.go:354-365 | The new server is patched first and attached then; neither error matters |
| `MachineController.AttachServerToVLAN` | internal/controller/latitudemachine_controller.go:663-704 | Attachment is skipped without VLAN or VLAN id, its errors are dropped, and a nil cluster panics |
| `MachineController.InjectVLANConfig` | internal/controller/latitudemachine_controller.go:707-765 | Name hash, address and entry give exactly the rendered user data; every error keeps the raw data |
| `MachineController.ValidateMachineSpec` | internal/controller/latitudemachine_controller.go:368-388 | An error if and only if os, plan, project or site is missing, naming all that are |
| `MachineController.CheckControlPlaneFailed` | internal/controller/latitudemachine_controller.go:391-427 | True exactly if the listed namespace has a failed control-plane machine; errors count as no |
| `MachineController.AnyControlPlaneFailed` | internal/controller/latitudemachine_controller.go:406-426 | The loop decides whether some machine with a readable control-plane owner has failed |
| `MachineController.GetSSHKeys` | internal/controller/latitudemachine_controller.go:503-573 | No reference gives no keys; a missing secret, a failed read and a missing key are errors; otherwise the parsed keys |
| `MachineController.IsPermanentError` | internal/controller/latitudemachine_controller.go:640-660 | The loop decides whether some permanent code occurs in the text |
| `MachineScope.LatitudeMachine.SetCondition` | internal/controller/latitudemachine_controller.go:580-616 | Only the conditions change, by the map update of Conditions.Put |
| `MachineScope.LatitudeMachine.SetFailed` | internal/controller/latitudemachine_controller.go:628-632 | Ready off, failure reason and message set, nothing else |
| `MachineScope.MachineScope.SetProviderID` | internal/scope/machine.go:145-148 | Provider id in spec and status, nothing else |
| `MachineScope.MachineScope.SetReady` | internal/scope/machine.go:130-132 | Ready on, nothing else |
| `MachineScope.MachineScope.SetNotReady` | internal/scope/machine.go:135-137 | Ready off, nothing else |
| `MachineScope.MachineScope.GetRawBootstrapData` | internal/scope/machine.go:82-112 | Not ready without a secret name or secret; errors for a failed read, a missing or an empty value |
| `MachineScope.Session.GetPlacement` | internal/controller/latitudemachine_controller.go:429-464 | Project and site from the cluster and the owner, with the failure domain first |
| `MachineScope.Session.LookUpCluster` | internal/controller/latitudemachine_controller.go:479-506 | The cluster is nil exactly without an owner or a CAPI cluster, and found exactly if all three reads succeed; a missing LatitudeCluster is an error |
| `MachineScope.Session.GetProjectID` | internal/controller/latitudemachine_controller.go:429-438 | The project of the cluster that was read, empty otherwise |
| `MachineScope.Session.GetSite` | internal/controller/latitudemachine_controller.go:440-464 | Failure domain, else location, empty if a read fails |
| `MachineScope.ValidateServerSpec` | internal/latitude/client.go:294-308 | Refuses exactly the incomplete specs |
| `MachineScope.Session.CreateServer` | internal/latitude/client.go:131-185 | An id is returned only for a complete spec |
| `MachineScope.Session.GetServer` | internal/latitude/client.go:188-218 | A found server carries the requested id; a reply without attributes is a panic |
| `MachineScope.Session.CreateUserData` | internal/latitude/client.go:98-120 | The content sent is the rendered user data; success may carry an empty id |
| `MachineScope.Session.AttachServerToVLAN` | internal/latitude/client.go:464-492 | Success only for non-empty ids; already assigned counts as success |
| `MachineScope.Session.DeleteServer` | internal/latitude/client.go:220-228 | Every error of the API is returned, also for a server that is gone |
| `MachineScope.Session.Patch` | internal/controller/latitudemachine_controller.go:72-78 | Writes the object as it is in memory at that moment |
| `Conditions.SetCondition` | internal/controller/latitudemachine_controller.go:594-615 | The loop of both controllers computes Put |
| `Conditions.PutIsMapUpdate` | internal/controller/latitudemachine_controller.go:594-615 | Put keeps types unique and updates exactly the reported type |
| `Conditions.TimeMovesOnChange` | internal/controller/latitudemachine_controller.go:599-609 | A machine's report replaces the old one, with a new time exactly if status, reason or message differ; a cluster's replaces it exactly if status or reason differ |
| `ClusterScope.LatitudeCluster.SetCondition` | internal/controller/latitudecluster_controller.go:376-398 | Only the conditions change; status and reason decide whether the report is replaced |
| `MachineIndex.GetMachineIndex` | internal/controller/latitudemachine_controller.go:769-783 | The wrapping 64-bit loop computes the signed representative of the base-31 polynomial, and its index lies in 0..240 |
| `MachineIndex.WrapStep` | internal/controller/latitudemachine_controller.go:774-776 | One wrapped step is one step of the polynomial modulo 2^64 |
| `MachineIndex.IndicesCollide` | internal/controller/latitudemachine_controller.go:767-768 | Unique indices are promised; two valid names share one |
| `VlanAddress.CalculateVLANIPAddress` | internal/controller/vlan_config.go:107-130 | The copied and overwritten buffer prints the network's first three octets and 10 + index modulo 256; an invalid subnet is an error |
| `VlanAddress.LastOctet` | internal/controller/vlan_config.go:113-127 | For every index in 0..240 the byte conversion keeps 10 + index, so the octet lies in 10..250 |
| `VlanAddress.AddressIsUsable` | internal/controller/vlan_config.go:107-130 | The address is inside the subnet and neither network nor broadcast address if and only if the prefix is at most /24 or 10 + index lies strictly inside the subnet's block of last octets |
| `VlanAddress.AddressesAreDistinct` | internal/controller/vlan_config.go:105-129 | Two indices in 0..240 print the same address only if they are equal |
| `VlanAddress.ParseFormat` | internal/controller/vlan_config.go:129 | Every address survives printing and reading back |
| `VlanAddress.NamesShareAddress` | internal/controller/latitudemachine_controller.go:728-734 | In one subnet two machine names get the same address if and only if their 64-bit hashes give the same index |
| `VlanAddress.AddressOutsideSubnet` | internal/controller/vlan_config.go:125-127 | 10.0.0.128/25 with index 0: the address lies outside the subnet |
| `VlanAddress.ParseCIDRFormat` | internal/controller/vlan_config.go:108 | Every network survives printing and reading back |
| `VlanAddress.ParseCIDRMasks` | internal/controller/vlan_config.go:108 | A subnet text with host bits set names the aligned network that holds the address |
| `CloudInit.ScanUndoesEscape` | internal/controller/vlan_config.go:100-103 | A YAML scanner returns the original text behind its escaped form and stops at the closing quote, if and only if the text is one line |
| `CloudInit.EntryReadsBack` | internal/controller/vlan_config.go:91-97 | Reading the injected entry as a single-quoted scalar gives exactly the command |
| `CloudInit.InjectAddsOneEntry` | internal/controller/vlan_config.go:85-97 | The output lines are the input lines plus the entry right behind the first line with runcmd:, if another line follows; otherwise the input plus a fixed section |
| `CloudInit.InjectConserves` | internal/controller/vlan_config.go:85-97 | Cutting the one inserted piece out of the output gives the input back |
| `SshKeys.ParseKeys` | internal/controller/latitudemachine_controller.go:555-572 | The loop returns the trimmed, non-empty pieces |
| `SshKeys.FindKeyData` | internal/controller/latitudemachine_controller.go:542-549 | The loop returns the value of the first of the four names that is present |
| `SshKeys.NamesInOrder` | internal/controller/latitudemachine_controller.go:542-549 | That is ssh-key-ids, or else sshKeys, or else ssh_keys, or else keys |
| `SshKeys.ParseInvertsJoin` | internal/controller/latitudemachine_controller.go:555-573 | Parsing undoes joining, for all good keys with any white space around each |
| `SshKeys.ParsedKeysAreGood` | internal/controller/latitudemachine_controller.go:562-569 | Every returned key is non-empty, trimmed and free of commas |
| `SshKeys.OuterTrimIsRedundant` | internal/controller/latitudemachine_controller.go:556 | Trimming the whole value first changes nothing |
| `VlanCount.VlansAreBounded` | internal/controller/latitudecluster_controller.go:281-318 | In every run, with GetVLAN failing, replies and patches lost and crashes: live VLANs with a cluster's description <= 1 + failed lists for it |
| `VlanCount.OneVlanPerDescription` | internal/latitude/client.go:323-336 | If every list succeeds and is complete, never two live VLANs with one cluster's description |
| `VlanOwnership.ExistingVlansAreSafe` | internal/controller/latitudecluster_controller.go:265-279 | In every run, a cluster with an existing VLAN id never creates a VLAN nor asks to delete one |
| `VlanOwnership.OnlyOwnVlansAreDeleted` | internal/controller/latitudecluster_controller.go:346-363 | A cluster asks to delete only a VLAN that carries its own description |
| `VlanOwnership.VlansAreNotShared` | internal/controller/latitudecluster_controller.go:298-318 | Two clusters of one namespace never own the same VLAN, unless the name and subnet of one shift into those of the other |
| `ClusterRuns.SharingIsShifting` | internal/controller/latitudecluster_controller.go:298-318 | For two clusters of one namespace with valid specs and VLANs of their own: some run gives them the same VLAN if and only if one shifts into the other |
| `VlanOwnership.DashFreeVlansAreNotShared` | internal/controller/latitudecluster_controller.go:298-318 | With dash-free subnets two clusters of one namespace never own the same VLAN |
| `VlanOwnership.DescriptionsCollide` | internal/controller/latitudecluster_controller.go:298 | Two clusters have one description if and only if names and subnets are equal or one shifts into the other |
| `VlanOwnership.DescriptionsAreInjective` | internal/controller/latitudecluster_controller.go:298 | Without dashes in the subnets, descriptions are equal if and only if names and subnets are |
| `VlanOwnership.DashesConfuseDescriptions` | internal/controller/latitudecluster_controller.go:298 | With a dash in a subnet, two clusters of different names share their description |
| `VlanOwnership.VidMatchesVlan` | internal/controller/latitudecluster_controller.go:265-318 | A status with a VID has a VLAN id, and the VID is that VLAN's, across reuse, re-verification, loss and re-creation |
| `ClusterPromises.VlanRequestsAreTheClusters` | internal/controller/latitudecluster_controller.go:297-318 | In every run, every creation of a VLAN asks for the cluster's own project, its location in small letters and its description; right before it the VLANs of that project were listed, and none had the description, or the list failed |
| `ClusterPromises.ListIsForTheProject` | internal/latitude/client.go:323-336 | Every list of VLANs is for the project of the cluster as it was applied |
| `ClusterPromises.UnavailableLocationFails` | internal/controller/latitudecluster_controller.go:217-235 | Behind a list of regions that failed or lacks the cluster's location comes nothing but the patch, and the reconcile ends with an error and a retry in half a minute |
| `ClusterPromises.FirstControlPlaneIsInspected` | internal/controller/latitudecluster_controller.go:428-446 | Behind a list of Machines the object of the first one with the control-plane label is read, if it has a name; otherwise the patch comes next |
| `ClusterHistory.HistoryDecides` | internal/controller/latitudecluster_controller.go:65-518 | In every run, each call of a cluster's reconcile, every patched object up to the time of a report, and the result are decided by the answers that the same reconcile got before, unless the process crashes instead |
| `VlanRequests.RequestedVidIsIgnored` | internal/controller/latitudecluster_controller.go:305-318 | With another requested VID, or none, a reconcile makes the same calls (up to the spec in the object it saves), and goes on the same |
| `VlanRequests.RequestIsMetByChance` | internal/controller/latitudecluster_controller.go:305-318 | The VID on record is a given one if and only if the VLAN on record has it in the cloud |
| `ClusterRuns.AnyVidIsRecorded` | internal/latitude/client.go:340-353 | For any valid cluster with a VLAN of its own, whatever VID it asks for, and any VID, some run records that one |
| `VlanCleanup.NoVlanIsOrphaned` | internal/controller/latitudecluster_controller.go:177-195 | If lists and deletions succeed, a failed creation makes nothing, and no reconcile ends with its VLAN unsaved: every live VLAN that a cluster's reconcile made belongs to that cluster, which exists with its finalizer and has it on record (or in the memory of its reconcile); so a vanished cluster leaves none behind, also if GetVLAN fails at will |
| `EndpointHistory.EndpointIsTraced` | internal/controller/latitudecluster_controller.go:143-152 | Across both controllers: an endpoint that is set belongs to a Ready cluster, has port 6443, and its host is the first IP that GetServer reported for a running server of a control-plane machine of this cluster's owner, which is Ready |
| `EndpointHistory.EndpointIsWrittenOnce` | internal/controller/latitudecluster_controller.go:405-411 | An endpoint that is set never changes, and a Ready cluster stays Ready |
| `EndpointRuns.EndpointCanBeSet` | internal/controller/latitudecluster_controller.go:400-518 | A run of both controllers that sets an endpoint, and leaves a Ready cluster whose ClusterReady is False by that alone |
| `EndpointChoice.SelectIP` | internal/controller/latitudecluster_controller.go:474-493 | The two loops compute Select |
| `EndpointChoice.LoopsAreOneSearch` | internal/controller/latitudecluster_controller.go:474-493 | They are one search for the first IP unless that is empty while an internal one is not; always for non-empty addresses |
| `EndpointChoice.SelectsFirstReportedIP` | internal/controller/latitudemachine_controller.go:195-210 | On the addresses that the machine controller writes, the choice is the server's first IP |
| `ClusterConditions.ClusterReadyIsTrue` | internal/controller/latitudecluster_controller.go:133-148 | In every run, ClusterReady is True if and only if the cluster is Ready, has no endpoint, and never saved a failed reconcile while Ready; otherwise a Ready cluster reports False |
| `ClusterRuns.ReadyCanReportFalse` | internal/controller/latitudecluster_controller.go:134-148 | A run that ends with a Ready cluster without endpoint whose ClusterReady is False, after a failed reconcile |
| `ClusterInvariant.AlwaysSound` | internal/controller/latitudecluster_controller.go:98-106 | How in-memory and persisted cluster relate in every run; names stay unique, specs fixed |
| `ClusterSteps.EveryChange` | internal/controller/latitudecluster_controller.go:117-518 | What any one answer may change in the in-memory cluster, and the order of the calls |
| `ClusterSteps.PickedIsControlPlane` | internal/controller/latitudecluster_controller.go:428-439 | The machine that is picked is on the list and carries the control-plane label |
| `ClusterSteps.EveryReconcileEnds` | internal/controller/latitudecluster_controller.go:65-115 | Whatever the answers, a reconcile makes at most 9 calls |
| `ClusterController.Reconcile` | internal/controller/latitudecluster_controller.go:65-115 | The imperative reconcile holds the protocol to its end; without an owner nothing is patched |
| `ClusterController.PatchDeferred` | internal/controller/latitudecluster_controller.go:98-106 | The deferred patch; its error is returned only if there is no other |
| `ClusterController.ReconcileNormal` | internal/controller/latitudecluster_controller.go:117-131 | Finalizer first, then validation |
| `ClusterController.Provide` | internal/controller/latitudecluster_controller.go:133-174 | Infrastructure errors are reported and returned; Ready is set before any endpoint is looked for |
| `ClusterController.ValidateClusterSpec` | internal/controller/latitudecluster_controller.go:197-215 | An error if and only if location or project is missing, naming all that are |
| `ClusterController.ReconcileInfrastructure` | internal/controller/latitudecluster_controller.go:217-251 | The location must be among the regions; VLAN errors are wrapped |
| `ClusterController.IsAvailable` | internal/controller/latitudecluster_controller.go:226-232 | The loop decides membership |
| `ClusterController.ReconcileVLAN` | internal/controller/latitudecluster_controller.go:254-279 | No VLAN, or the existing one with its VID, or one of the cluster's own |
| `ClusterController.ReconcileOwnVlan` | internal/controller/latitudecluster_controller.go:281-295 | A VLAN on record that can be read is kept and completed with its VID; otherwise one is requested |
| `ClusterController.RequestVlan` | internal/controller/latitudecluster_controller.go:297-323 | The request carries the cluster's description; id and VID are recorded |
| `ClusterController.CreateVLAN` | internal/latitude/client.go:312-375 | The result carries the requested description; missing project or site is an error |
| `ClusterController.FindOrPost` | internal/latitude/client.go:323-374 | A listed VLAN with the description is reused; a failed list is ignored; otherwise one is created |
| `ClusterScope.SearchVlan` | internal/latitude/client.go:329-335 | The loop finds the first VLAN with the description |
| `ClusterScope.CollectVlans` | internal/latitude/client.go:419-440 | The loop keeps the entries that have attributes, in order |
| `ClusterScope.VlansFromKeepsAll` | internal/latitude/client.go:419-440 | A VLAN is returned if and only if it is an entry with attributes |
| `ClusterScope.Session.GetVLAN` | internal/latitude/client.go:378-407 | Success only for a non-empty id; missing attributes become empty or zero |
| `ClusterScope.Session.PostVLAN` | internal/latitude/client.go:338-374 | A created VLAN carries the requested description |
| `ClusterScope.Session.DeleteVLAN` | internal/latitude/client.go:446-461 | Success only for a non-empty id; not found counts as success |
| `ClusterController.SetupControlPlaneEndpoint` | internal/controller/latitudecluster_controller.go:402-449 | True exactly if an endpoint is set behind it; one that was set is kept |
| `ClusterController.InspectMachine` | internal/controller/latitudecluster_controller.go:452-518 | The endpoint is set exactly if the machine is read, Ready and has an IP |
| `ClusterController.PickControlPlane` | internal/controller/latitudecluster_controller.go:428-439 | The loop finds the first control-plane Machine |
| `ClusterController.CleanupVLAN` | internal/controller/latitudecluster_controller.go:346-373 | Only a VLAN of the cluster's own is deleted; the error is dropped |
| `ClusterController.ReconcileDelete` | internal/controller/latitudecluster_controller.go:177-195 | The finalizer goes whether or not the VLAN could be deleted |

## Left out

- SDK calls, HTTP, timeouts, `WaitForServer`, server, plan and detachment calls that no reconciler makes: only the outcomes of the calls are modelled.
- Kubernetes machinery: informer staleness, leader election, events, logging, metrics, RBAC and manager setup.
- Patches: the helper writes a difference against the object as first read, and metadata and status apart; the model writes finalizer, provider id and status at once. A failure of `NewHelper` is not modelled.
- Objects are identified by uid; a name that is deleted and applied again is another object. Other finalizers, and users who edit status or provider id, are not modelled.
- The namespace list and the owner reads behind it are one answer, as are the reads behind project and site; the code makes them one after the other.
- `InfrastructureRef` of the CAPI Cluster is taken to be non-nil (internal/controller/latitudemachine_controller.go:493).
- Base64, and what the injected shell command does; the command is a fixed text around VID, address and prefix length. That the whole document stays well-formed YAML is not claimed, as `runcmd:` is found as a plain substring.
- `GenerateVLANNetplanConfig`, which no code calls; `SetNotReady` is modelled with the rest of the scope, but no reconciler calls it either.
- Nil ids in successful replies: the client dereferences the id of a created server, user data or VLAN, of a VLAN that it reads and of a listed one (internal/latitude/client.go:115, 175, 364, 394, 427) without a check; the model takes them to be there.
- The API requests behind one lookup are not counted one by one.
- IPv6: an IPv6 subnet is an error, as in the code for all but IPv4-mapped ones; the two error texts are not told apart.
- Invalid UTF-8 in names and secrets; `EqualFold` and `ToLower` are modelled for ASCII.
- `NetworkInterface` of the VLAN spec, which the injected command does not use (api/v1beta1/latitudecluster_types.go:34-36).
- What a vanished machine leaves behind of its user data: the deletion's error is dropped (internal/controller/latitudemachine_controller.go:240-246), and live user data is not part of the state.
- The template controller, webhooks, generated deep copies, tests and manifests.
- Deletion progress: `DeleteServer` reports a server that is already gone as an error (internal/latitude/client.go:220-228), so a deletion may repeat without end.
- The order in which reconciles are queued, and the delays that they ask for, beyond their values.
