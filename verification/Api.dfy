/** The persisted objects: LatitudeMachine and LatitudeCluster. */
module Api {
  import opened Prelude
  import opened Conditions

  type Uid = string

  datatype SecretRef = SecretRef(namespace: string, name: string)

  // ---- LatitudeMachine ----

  datatype MachineSpec = MachineSpec(
    os: string,
    plan: string,
    sshKeys: Option<SecretRef>,
    providerID: Option<string>)

  datatype AddressKind = ExternalIP | InternalIP | HostName

  datatype Address = Address(kind: AddressKind, value: string)

  datatype MachineStatus = MachineStatus(
    ready: bool,
    providerID: string,
    serverID: string,
    userDataID: string,
    addresses: seq<Address>,
    failureReason: Option<string>,
    failureMessage: Option<string>,
    conditions: seq<Condition>)

  /** `paused`, `deleting` and `finalizer`: the annotation, the deletion timestamp, and the machine finalizer. */
  datatype Machine = Machine(
    uid: Uid,
    namespace: string,
    name: string,
    generation: nat,
    paused: bool,
    deleting: bool,
    finalizer: bool,
    spec: MachineSpec,
    status: MachineStatus)

  // ---- LatitudeCluster ----

  datatype VlanConfig = VlanConfig(subnet: string, vid: Option<int>, existing: Option<string>)

  datatype ClusterSpec = ClusterSpec(location: string, project: Option<string>, vlan: Option<VlanConfig>)

  datatype Endpoint = Endpoint(host: string, port: int)

  datatype ClusterStatus = ClusterStatus(
    ready: bool,
    endpoint: Endpoint,
    vlanID: Option<string>,
    vlanVID: Option<int>,
    conditions: seq<Condition>)

  datatype Cluster = Cluster(
    uid: Uid,
    namespace: string,
    name: string,
    deleting: bool,
    finalizer: bool,
    spec: ClusterSpec,
    status: ClusterStatus)

  /** What Reconcile returns: a delay before the next run and an error; or it panicked. */
  datatype Outcome = Returned(requeueAfter: nat, error: Option<string>) | Panicked

  const DONE := Returned(0, None)
  const MINUTES_5 := Returned(300, None)
  const SECONDS_30 := Returned(30, None)
  const SECONDS_15 := Returned(15, None)

  function Failure(error: string): Outcome {
    Returned(0, Some(error))
  }
}
