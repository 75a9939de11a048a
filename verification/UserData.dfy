/** The cloud-init text uploaded for a machine. */
module UserData {
  import opened Prelude
  import opened Text
  import opened Api
  import opened VlanAddress
  import opened CloudInit
  import opened MachineIndex

  /** The inputs of an upload: the machine's name, its raw bootstrap data, and the cluster if it could be read. */
  datatype UserData = UserData(machine: string, raw: string, cluster: Option<Cluster>)

  /** The VLAN settings of a machine: none without a VLAN, a VID, or an IPv4 subnet. */
  function VlanSettings(u: UserData): Option<VlanNetplan> {
    if u.cluster.None? || u.cluster.value.spec.vlan.None? || u.cluster.value.status.vlanVID.None? then None
    else
      var subnet := u.cluster.value.spec.vlan.value.subnet;
      match AddressFor(subnet, IndexOf(u.machine))
      case Err(_) => None
      case Ok(ip) => Some(VlanNetplan(u.cluster.value.status.vlanVID.value, subnet, ip))
  }

  /** The uploaded text. */
  function Render(u: UserData): string {
    match VlanSettings(u)
    case None => u.raw
    case Some(cfg) => Inject(u.raw, cfg)
  }

  /** The cluster has a VLAN, a VID for it, and an IPv4 subnet. */
  predicate HasVlan(cluster: Option<Cluster>) {
    && cluster.Some? && cluster.value.spec.vlan.Some?
    && cluster.value.status.vlanVID.Some? && cluster.value.status.vlanVID.value != 0
    && ParseCIDR(cluster.value.spec.vlan.value.subnet).Some?
  }

  /**
   * Every upload is the raw bootstrap data, with one VLAN entry or section put in and nothing else changed if the
   * cluster's VLAN is usable, and with nothing put in if it is not.
   */
  lemma UploadIsRawPlusOneEntry(u: UserData) returns (front: string, inserted: string, back: string)
    ensures u.raw == front + back && Render(u) == front + inserted + back
    ensures inserted != "" <==> HasVlan(u.cluster)
    ensures inserted != "" ==>
              exists cfg :: VlanSettings(u) == Some(cfg) && inserted in {Entry(cfg) + "\n", Section(Entry(cfg))}
  {
    match VlanSettings(u)
    case None =>
      front, inserted, back := u.raw, "", "";
    case Some(cfg) =>
      if Complete(cfg) {
        front, inserted, back := InjectConserves(u.raw, Entry(cfg));
      } else {
        front, inserted, back := u.raw, "", "";
      }
  }
}
