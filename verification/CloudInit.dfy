/** Injecting the VLAN command into cloud-init user data, and the YAML quoting of that command. */
module CloudInit {
  import opened Prelude
  import opened Text
  import opened VlanAddress

  datatype VlanNetplan = VlanNetplan(vid: int, subnet: string, ip: Line)

  /** The prefix length of the subnet; 24 when it cannot be parsed. */
  function MaskSize(subnet: string): nat {
    match ParseCIDR(subnet)
    case None => 24
    case Some(net) => net.bits
  }

  /** %d */
  function Signed(n: int): Line {
    if n < 0 then "-" + Decimal(-n) else Decimal(n)
  }

  // The fixed parts of the shell command, around the numbers that it inserts.
  const SCRIPT_01: Line := "if ! command -v yq >/dev/"
  const SCRIPT_02: Line := "null 2>&1; then apt-get "
  const SCRIPT_03: Line := "update -qq && apt-get "
  const SCRIPT_04: Line := "install -y yq >/dev/null "
  const SCRIPT_05: Line := "2>&1; fi;PRIV_IFACE=$(yq "
  const SCRIPT_06: Line := "-r '.network.ethernets | "
  const SCRIPT_07: Line := "to_entries[] | "
  const SCRIPT_08: Line := "select(.value.gateway4 == "
  const SCRIPT_09: Line := "null) | .key' /etc/netplan/"
  const SCRIPT_10: Line := "50-cloud-init.yaml 2>/dev/"
  const SCRIPT_11: Line := "null | head -1); if [ -z "
  const SCRIPT_12: Line := "\"$PRIV_IFACE\" ]; then "
  const SCRIPT_13: Line := "PRIV_IFACE=\"eno2\"; fi; "
  const SCRIPT_14: Line := "printf \"\\n    vlans:\\n       "
  const SCRIPT_15: Line := " vlan."
  const SCRIPT_16: Line := ":\\n            id: "
  const SCRIPT_17: Line := "\\n            link: "
  const SCRIPT_18: Line := "$PRIV_IFACE\\n            "
  const SCRIPT_19: Line := "addresses: ["
  const SCRIPT_20: Line := "]\\n\" >> /etc/netplan/50-"
  const SCRIPT_21: Line := "cloud-init.yaml && netplan "
  const SCRIPT_22: Line := "apply && mkdir -p /etc/"
  const SCRIPT_23: Line := "rancher/rke2/config.yaml.d "
  const SCRIPT_24: Line := "&& echo \"node-ip: "
  const SCRIPT_25: Line := "\" > /etc/rancher/rke2/"
  const SCRIPT_26: Line := "config.yaml.d/99-node-ip.yaml"

  /** The shell command that configures the VLAN interface on first boot. It has no line break. */
  function VlanCommand(cfg: VlanNetplan): Line {
    var vid, ip, mask := Signed(cfg.vid), cfg.ip, Decimal(MaskSize(cfg.subnet));
    Concat([
      SCRIPT_01, SCRIPT_02, SCRIPT_03, SCRIPT_04, SCRIPT_05, SCRIPT_06, SCRIPT_07, SCRIPT_08,
      SCRIPT_09, SCRIPT_10, SCRIPT_11, SCRIPT_12, SCRIPT_13, SCRIPT_14, SCRIPT_15, vid, SCRIPT_16, vid,
      SCRIPT_17, SCRIPT_18, SCRIPT_19, ip, "/", mask, SCRIPT_20, SCRIPT_21, SCRIPT_22, SCRIPT_23,
      SCRIPT_24, ip, SCRIPT_25, SCRIPT_26
    ])
  }

  // ---- YAML single quotes (section 7.3.2 of YAML 1.2.2) ----

  /** strings.ReplaceAll(s, "'", "''") */
  function EscapeForYAML(s: string): (r: string)
    ensures SingleLine(s) ==> SingleLine(r)
  {
    if s == "" then "" else (if s[0] == '\'' then "''" else [s[0]]) + EscapeForYAML(s[1..])
  }

  datatype Scalar = Unterminated | Scalar(content: string, rest: string)

  /**
   * Reads a single-quoted scalar from just behind its opening quote: a doubled quote stands for one quote, a single
   * quote closes the scalar. Line breaks would be folded, so a scalar that is to be read verbatim has none.
   */
  function ScanQuoted(t: string): Scalar {
    if t == "" || t[0] == '\n' || t[0] == '\r' then Unterminated
    else if t[0] != '\'' then Prepend(t[0], ScanQuoted(t[1..]))
    else if |t| > 1 && t[1] == '\'' then Prepend('\'', ScanQuoted(t[2..]))
    else Scalar("", t[1..])
  }

  function Prepend(c: char, s: Scalar): Scalar {
    match s
    case Unterminated => Unterminated
    case Scalar(content, rest) => Scalar([c] + content, rest)
  }

  lemma SingleLineCons(c: char, s: string)
    ensures SingleLine([c] + s) <==> c != '\n' && c != '\r' && SingleLine(s)
  {}

  /** Behind an escaped text, the scanner returns that text and stops at the closing quote, exactly when it is one line. */
  lemma {:induction false} ScanUndoesEscape(s: string, rest: string)
    requires rest == "" || rest[0] != '\''
    ensures ScanQuoted(EscapeForYAML(s) + "'" + rest) == (if SingleLine(s) then Scalar(s, rest) else Unterminated)
  {
    var t := EscapeForYAML(s) + "'" + rest;
    if s == "" {
      assert t == "'" + rest && t[1..] == rest;
    } else {
      var tail := EscapeForYAML(s[1..]) + "'" + rest;
      ScanUndoesEscape(s[1..], rest);
      SingleLineCons(s[0], s[1..]);
      assert s == [s[0]] + s[1..];
      if s[0] == '\'' {
        assert t == "''" + tail && t[2..] == tail;
      } else {
        assert t == [s[0]] + tail && t[1..] == tail;
      }
    }
  }

  // ---- InjectVLANConfigIntoCloudInit ----

  const RUNCMD := "runcmd:"

  /** The list entry without its line break. */
  function Entry(cfg: VlanNetplan): Line {
    "  - '" + EscapeForYAML(VlanCommand(cfg)) + "'"
  }

  predicate Complete(cfg: VlanNetplan) {
    cfg.vid != 0 && cfg.ip != "" && cfg.subnet != ""
  }

  function Inject(userData: string, cfg: VlanNetplan): string {
    if Complete(cfg) then InjectEntry(userData, Entry(cfg)) else userData
  }

  function InjectEntry(userData: string, entry: Line): string {
    InjectAt(userData, Index(userData, RUNCMD), entry)
  }

  function InjectAt(userData: string, idx: int, entry: Line): string
    requires -1 <= idx <= |userData|
  {
    var newline := if idx < 0 then -1 else Index(userData[idx..], "\n");
    if newline >= 0 then Splice(userData, idx + newline + 1, entry)
    else userData + Section(entry)
  }

  /** The text with the entry put on a line of its own at a position. */
  function Splice(text: string, point: nat, entry: Line): string
    requires point <= |text|
  {
    text[..point] + (entry + "\n" + text[point..])
  }

  /** The section that is appended when there is no runcmd line to extend. */
  function Section(entry: Line): string {
    "\nruncmd:\n" + entry + "\n"
  }

  function Lines(s: string): seq<string> {
    Split(s, '\n')
  }

  /** The lines with the entry behind the first one that mentions runcmd:, unless that line is the last or missing. */
  function EntryBehindRuncmd(lines: seq<string>, entry: string): Option<seq<string>> {
    if |lines| <= 1 then None
    else if Contains(lines[0], RUNCMD) then Some([lines[0], entry] + lines[1..])
    else
      match EntryBehindRuncmd(lines[1..], entry)
      case None => None
      case Some(rest) => Some([lines[0]] + rest)
  }

  /** A text is its first line, or its first line, a line break and the remaining text. */
  lemma FirstLine(s: string) returns (a: string, b: string)
    ensures '\n' !in a
    ensures |Lines(s)| == 1 ==> s == a && Lines(s) == [a]
    ensures |Lines(s)| > 1 ==> s == a + ['\n'] + b && Lines(s) == [a] + Lines(b)
  {
    var i := Index(s, "\n");
    if i < 0 {
      a, b := s, "";
      if '\n' in s {
        var j :| 0 <= j < |s| && s[j] == '\n';
        assert At(s, "\n", j);
      }
      SplitWithoutSeparator(s, '\n');
    } else {
      a, b := s[..i], s[i + 1..];
      if '\n' in a {
        var j :| 0 <= j < i && s[j] == '\n';
        assert At(s, "\n", j);
      }
      assert s == a + ['\n'] + b;
      SplitAtSeparator(a, '\n', b);
    }
  }

  lemma FirstNewline(a: string, b: string)
    requires '\n' !in a
    ensures Index(a + ['\n'] + b, "\n") == |a|
  {
    var s := a + ['\n'] + b;
    assert At(s, "\n", |a|);
    forall j: nat | j < |a|
      ensures !At(s, "\n", j)
    {
      assert s[j..j + 1] == [a[j]];
    }
  }

  lemma InjectIntoLastLine(a: string, entry: Line)
    requires '\n' !in a
    ensures InjectEntry(a, entry) == a + Section(entry)
  {
    var idx := Index(a, RUNCMD);
    if idx >= 0 {
      var t := a[idx..];
      forall j: nat ensures !At(t, "\n", j) {
        if j + 1 <= |t| {
          assert t[j..j + 1] == [a[idx + j]];
        }
      }
    }
  }

  lemma InjectAtFirstLine(a: string, b: string, idx: nat, entry: Line)
    requires '\n' !in a && idx <= |a|
    ensures InjectAt(a + ['\n'] + b, idx, entry) == a + ['\n'] + (entry + ['\n'] + b)
  {
    var s := a + ['\n'] + b;
    assert s[idx..] == a[idx..] + ['\n'] + b;
    FirstNewline(a[idx..], b);
    assert s[..|a| + 1] == a + ['\n'] && s[|a| + 1..] == b;
  }

  lemma InjectAtLaterLine(front: string, b: string, idx: nat, entry: Line)
    requires idx <= |b|
    ensures InjectAt(front + b, |front| + idx, entry) == front + InjectAt(b, idx, entry)
  {
    var s := front + b;
    assert s[|front| + idx..] == b[idx..];
    var newline := Index(b[idx..], "\n");
    if newline >= 0 {
      var point := idx + newline + 1;
      SpliceBehind(front, b, point, entry);
    } else {
      assert front + (b + Section(entry)) == s + Section(entry);
    }
  }

  lemma SpliceBehind(front: string, b: string, point: nat, entry: Line)
    requires point <= |b|
    ensures Splice(front + b, |front| + point, entry) == front + Splice(b, point, entry)
  {
    var s, tail := front + b, entry + "\n" + b[point..];
    assert s[..|front| + point] == front + b[..point] && s[|front| + point..] == b[point..];
    assert front + (b[..point] + tail) == (front + b[..point]) + tail;
  }

  /**
   * Injection seen as an operation on lines: the entry becomes one more line behind the first line that mentions
   * runcmd:, provided another line follows it; otherwise a runcmd section is appended to the unchanged text.
   */
  lemma {:induction false} InjectAddsOneEntry(userData: string, entry: Line)
    ensures var expected := EntryBehindRuncmd(Lines(userData), entry);
            if expected.Some? then Lines(InjectEntry(userData, entry)) == expected.value
            else InjectEntry(userData, entry) == userData + Section(entry)
    decreases |userData|
  {
    var a, b := FirstLine(userData);
    if |Lines(userData)| == 1 {
      InjectIntoLastLine(a, entry);
    } else if Contains(a, RUNCMD) {
      EntryBehindFirstLine(a, b, entry);
    } else {
      assert Lines(userData)[1..] == Lines(b);
      InjectAddsOneEntry(b, entry);
      EntryBehindLaterLine(a, b, entry);
    }
  }

  lemma EntryBehindFirstLine(a: string, b: string, entry: Line)
    requires '\n' !in a && Contains(a, RUNCMD)
    ensures Lines(InjectEntry(a + ['\n'] + b, entry)) == [a, entry] + Lines(b)
  {
    ContainsAcross(a, '\n', b, RUNCMD);
    InjectAtFirstLine(a, b, Index(a, RUNCMD), entry);
    SplitAtSeparator(a, '\n', entry + ['\n'] + b);
    SplitAtSeparator(entry, '\n', b);
  }

  lemma EntryBehindLaterLine(a: string, b: string, entry: Line)
    requires '\n' !in a && !Contains(a, RUNCMD)
    ensures InjectEntry(a + ['\n'] + b, entry) == a + ['\n'] + InjectEntry(b, entry)
    ensures Lines(InjectEntry(a + ['\n'] + b, entry)) == [a] + Lines(InjectEntry(b, entry))
    ensures a + ['\n'] + (b + Section(entry)) == a + ['\n'] + b + Section(entry)
  {
    InjectBehindLaterLine(a, b, entry);
    SplitAtSeparator(a, '\n', InjectEntry(b, entry));
  }

  lemma InjectBehindLaterLine(a: string, b: string, entry: Line)
    requires '\n' !in a && !Contains(a, RUNCMD)
    ensures InjectEntry(a + ['\n'] + b, entry) == a + ['\n'] + InjectEntry(b, entry)
  {
    ContainsAcross(a, '\n', b, RUNCMD);
    if Contains(b, RUNCMD) {
      InjectAtLaterLine(a + ['\n'], b, Index(b, RUNCMD), entry);
    }
  }

  /** Injection only inserts: cutting one piece out of the result gives the input back. */
  lemma InjectConserves(userData: string, entry: Line) returns (front: string, inserted: string, back: string)
    ensures userData == front + back && InjectEntry(userData, entry) == front + inserted + back
    ensures inserted == entry + "\n" || inserted == Section(entry)
  {
    var idx := Index(userData, RUNCMD);
    var newline := if idx < 0 then -1 else Index(userData[idx..], "\n");
    if newline >= 0 {
      var point := idx + newline + 1;
      front, inserted, back := userData[..point], entry + "\n", userData[point..];
      assert front + inserted + back == Splice(userData, point, entry);
    } else {
      front, inserted, back := userData, Section(entry), "";
    }
  }

  lemma DropFront(front: string, a: string, b: string, c: string)
    ensures (front + a + b + c)[|front|..] == a + b + c
  {
    assert front + a + b + c == front + (a + b + c);
  }

  lemma QuotedReadsBack(cmd: Line, rest: string)
    requires rest == "" || rest[0] != '\''
    ensures ScanQuoted(("  - '" + EscapeForYAML(cmd) + "'" + rest)[5..]) == Scalar(cmd, rest)
  {
    ScanUndoesEscape(cmd, rest);
    DropFront("  - '", EscapeForYAML(cmd), "'", rest);
  }

  /** A YAML scanner behind the opening quote of the entry reads back the command and stops at the entry's end. */
  lemma EntryReadsBack(cfg: VlanNetplan, rest: string)
    requires rest == "" || rest[0] == '\n'
    ensures ScanQuoted((Entry(cfg) + rest)[5..]) == Scalar(VlanCommand(cfg), rest)
  {
    QuotedReadsBack(VlanCommand(cfg), rest);
  }
}
