/** What is uploaded for a machine, as text: the bootstrap data, and one line more if the cluster has a usable VLAN. */
module UploadText {
  import opened Prelude
  import opened Text
  import opened Api
  import opened VlanAddress
  import opened CloudInit
  import opened UserData
  import opened MachineIndex

  // ---- the command ----

  /** The part of the command that declares the VLAN interface, and the part that announces the address. */
  function Netplan(vid: string, ip: string, bits: string): seq<string> {
    [" vlan.", vid, ":\\n            id: ", vid, "\\n            link: ", "$PRIV_IFACE\\n            ", "addresses: [", ip, "/",
     bits, "]\\n\" >> /etc/netplan/50-"]
  }

  function NodeAddress(ip: string): seq<string> {
    ["&& echo \"node-ip: ", ip, "\" > /etc/rancher/rke2/"]
  }

  /** The command declares an interface for this VLAN, with this address, and announces the address as the node's. */
  ghost predicate Configures(command: string, vid: int, ip: string, bits: nat) {
    && Contains(command, Glue(Netplan(if vid < 0 then "-" + Decimal(-vid) else Decimal(vid), ip, Decimal(bits))))
    && Contains(command, Glue(NodeAddress(ip)))
  }

  function Glue(parts: seq<string>): string {
    if parts == [] then "" else parts[0] + Glue(parts[1..])
  }

  lemma {:induction false} GlueAppend(a: seq<string>, b: seq<string>)
    ensures Glue(a + b) == Glue(a) + Glue(b)
  {
    if a == [] {
      assert a + b == b;
    } else {
      assert (a + b)[1..] == a[1..] + b;
      GlueAppend(a[1..], b);
    }
  }

  lemma {:induction false} ConcatIsGlue(lines: seq<Line>)
    ensures Concat(lines) == Glue(lines)
  {
    if lines != [] {
      ConcatIsGlue(lines[1..]);
    }
  }

  lemma MiddleIsContained(a: string, b: string, c: string)
    ensures Contains(a + b + c, b)
  {
    assert (a + b + c)[|a|..|a| + |b|] == b;
    assert At(a + b + c, b, |a|);
  }

  lemma {:induction false} PartsAreContained(all: seq<string>, i: nat, j: nat)
    requires i <= j <= |all|
    ensures Contains(Glue(all), Glue(all[i..j]))
  {
    var a, b, c := all[..i], all[i..j], all[j..];
    assert all == (a + b) + c;
    ThreeGlued(a, b, c);
    MiddleIsContained(Glue(a), Glue(b), Glue(c));
  }

  lemma {:induction false} ThreeGlued(a: seq<string>, b: seq<string>, c: seq<string>)
    ensures Glue(a + b + c) == Glue(a) + Glue(b) + Glue(c)
  {
    GlueAppend(a + b, c);
    GlueAppend(a, b);
  }

  /** The parts of the command, in their order. */
  function Parts(vid: Line, ip: Line, mask: Line): seq<Line> {
    [SCRIPT_01, SCRIPT_02, SCRIPT_03, SCRIPT_04, SCRIPT_05, SCRIPT_06, SCRIPT_07, SCRIPT_08,
     SCRIPT_09, SCRIPT_10, SCRIPT_11, SCRIPT_12, SCRIPT_13, SCRIPT_14, SCRIPT_15, vid, SCRIPT_16, vid,
     SCRIPT_17, SCRIPT_18, SCRIPT_19, ip, "/", mask, SCRIPT_20, SCRIPT_21, SCRIPT_22, SCRIPT_23,
     SCRIPT_24, ip, SCRIPT_25, SCRIPT_26]
  }

  lemma NetplanPart(vid: Line, ip: Line, mask: Line)
    ensures Parts(vid, ip, mask)[14..25] == Netplan(vid, ip, mask)
  {}

  lemma NodePart(vid: Line, ip: Line, mask: Line)
    ensures Parts(vid, ip, mask)[28..31] == NodeAddress(ip)
  {}

  lemma CommandHasParts(cfg: VlanNetplan, net: Net)
    requires ParseCIDR(cfg.subnet) == Some(net)
    ensures VlanCommand(cfg) == Glue(Parts(Signed(cfg.vid), cfg.ip, Decimal(net.bits)))
  {
    ConcatIsGlue(Parts(Signed(cfg.vid), cfg.ip, Decimal(net.bits)));
  }

  lemma PartsConfigure(vid: Line, ip: Line, mask: Line)
    ensures Contains(Glue(Parts(vid, ip, mask)), Glue(Netplan(vid, ip, mask)))
    ensures Contains(Glue(Parts(vid, ip, mask)), Glue(NodeAddress(ip)))
  {
    var all := Parts(vid, ip, mask);
    NetplanPart(vid, ip, mask);
    NodePart(vid, ip, mask);
    PartsAreContained(all, 14, 25);
    PartsAreContained(all, 28, 31);
  }

  lemma CommandConfigures(cfg: VlanNetplan, net: Net)
    requires ParseCIDR(cfg.subnet) == Some(net)
    ensures Configures(VlanCommand(cfg), cfg.vid, cfg.ip, net.bits)
  {
    CommandHasParts(cfg, net);
    PartsConfigure(Signed(cfg.vid), cfg.ip, Decimal(net.bits));
  }

  // ---- the line ----

  /** A list entry in single quotes; a YAML scanner reads a command in it that configures the VLAN. */
  ghost predicate ConfiguresVlan(entry: string, vid: int, ip: string, bits: nat) {
    && |entry| >= 5 && entry[..5] == "  - '"
    && match ScanQuoted(entry[5..])
       case Unterminated => false
       case Scalar(command, rest) => rest == "" && Configures(command, vid, ip, bits)
  }

  lemma EntryConfigures(cfg: VlanNetplan, net: Net)
    requires ParseCIDR(cfg.subnet) == Some(net)
    ensures ConfiguresVlan(Entry(cfg), cfg.vid, cfg.ip, net.bits)
  {
    EntryReadsBack(cfg, "");
    assert Entry(cfg) + "" == Entry(cfg);
    CommandConfigures(cfg, net);
  }

  // ---- its place ----

  /** The first line that mentions runcmd:, with another line behind it. */
  ghost predicate Opens(lines: seq<string>, k: nat) {
    k + 1 < |lines| && Contains(lines[k], "runcmd:") && forall j :: 0 <= j < k ==> !Contains(lines[j], "runcmd:")
  }

  lemma {:induction false} BehindOpening(lines: seq<string>, entry: string, k: nat)
    requires Opens(lines, k)
    ensures EntryBehindRuncmd(lines, entry) == Some(lines[..k + 1] + [entry] + lines[k + 1..])
  {
    if k == 0 {
      assert lines[..1] + [entry] + lines[1..] == [lines[0], entry] + lines[1..];
    } else {
      var rest := lines[1..];
      assert !Contains(lines[0], "runcmd:");
      assert forall j :: 0 <= j < |rest| ==> rest[j] == lines[j + 1];
      BehindOpening(rest, entry, k - 1);
      assert lines[..k + 1] + [entry] + lines[k + 1..] == [lines[0]] + (rest[..k] + [entry] + rest[k..]);
    }
  }

  lemma {:induction false} OpeningExists(lines: seq<string>, entry: string) returns (k: nat)
    requires EntryBehindRuncmd(lines, entry).Some?
    ensures Opens(lines, k)
  {
    if Contains(lines[0], "runcmd:") {
      k := 0;
    } else {
      k := OpeningExists(lines[1..], entry);
      forall j | 0 < j <= k ensures !Contains(lines[j], "runcmd:") {
        assert lines[j] == lines[1..][j - 1];
      }
      k := k + 1;
    }
  }

  /** The text with the entry on a line of its own, behind the first runcmd: or in a section of its own at the end. */
  ghost predicate Gains(raw: string, entry: string, text: string) {
    var lines := Split(raw, '\n');
    && (forall k :: Opens(lines, k) ==> Split(text, '\n') == lines[..k + 1] + [entry] + lines[k + 1..])
    && ((forall k: nat :: !Opens(lines, k)) ==> text == raw + "\nruncmd:\n" + entry + "\n")
  }

  lemma InjectionGains(raw: string, entry: Line)
    ensures Gains(raw, entry, InjectEntry(raw, entry)) && |InjectEntry(raw, entry)| > |raw|
  {
    var lines := Split(raw, '\n');
    InjectAddsOneEntry(raw, entry);
    var front, inserted, back := InjectConserves(raw, entry);
    forall k | Opens(lines, k)
      ensures Split(InjectEntry(raw, entry), '\n') == lines[..k + 1] + [entry] + lines[k + 1..]
    {
      BehindOpening(lines, entry, k);
    }
    if forall k: nat :: !Opens(lines, k) {
      if EntryBehindRuncmd(lines, entry).Some? {
        var k := OpeningExists(lines, entry);
      }
      assert raw + ("\nruncmd:\n" + entry + "\n") == raw + "\nruncmd:\n" + entry + "\n";
    }
  }

  /** The address of a machine: the subnet's first three numbers, and 10 more than the index of its name. */
  function AddressOf(machine: string, net: Net): string {
    Decimal(net.ip[0]) + "." + (Decimal(net.ip[1]) + "." + (Decimal(net.ip[2]) + "." + Decimal(10 + IndexOf(machine))))
  }

  /** The text gains one entry, for the cluster's VID, its prefix length and the address of this machine. */
  ghost predicate GainsVlan(machine: string, raw: string, c: Cluster, entry: string, text: string) {
    && c.spec.vlan.Some? && c.status.vlanVID.Some? && Gains(raw, entry, text)
    && match ParseCIDR(c.spec.vlan.value.subnet)
       case None => false
       case Some(net) => ConfiguresVlan(entry, c.status.vlanVID.value, AddressOf(machine, net), net.bits)
  }

  /**
   * Exactly when the VLAN goes in: the cluster has a VLAN configuration and a recorded VID other than 0, and its subnet
   * is an IPv4 network. Then the text gains one entry, for that VID, that prefix length and this machine's address.
   */
  lemma VlanGoesIn(machine: string, raw: string, c: Cluster) returns (entry: string)
    ensures var text := Render(UserData(machine, raw, Some(c)));
            (text != raw <==> HasVlan(Some(c))) && (text != raw ==> GainsVlan(machine, raw, c, entry, text))
  {
    var u := UserData(machine, raw, Some(c));
    entry := "";
    if VlanSettings(u).Some? && c.status.vlanVID.value != 0 {
      var cfg, net := VlanSettings(u).value, ParseCIDR(c.spec.vlan.value.subnet).value;
      LastOctet(net, IndexOf(machine));
      entry := Entry(cfg);
      EntryConfigures(cfg, net);
      InjectionGains(raw, Entry(cfg));
    }
  }
}
