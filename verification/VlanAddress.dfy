/** The address of a machine in its VLAN: IPv4 CIDR arithmetic (section 3.1 of RFC 4632) and dotted quads. */
module VlanAddress {
  import opened Prelude
  import opened Text
  import MachineIndex

  type Octet = x: int | 0 <= x < 256
  type Quad = q: seq<Octet> | |q| == 4 witness [0, 0, 0, 0]

  /** A network: its first address and its prefix length. */
  datatype Net = Net(ip: Quad, bits: nat)

  function Pow2(n: nat): (p: nat)
    ensures p > 0
  {
    if n == 0 then 1 else 2 * Pow2(n - 1)
  }

  function Value(q: Quad): nat {
    var a: int, b: int, c: int, d: int := q[0], q[1], q[2], q[3];
    0x100_0000 * a + 0x1_0000 * b + 0x100 * c + d
  }

  function Size(bits: nat): nat
    requires bits <= 32
  {
    Pow2(32 - bits)
  }

  ghost predicate ValidNet(net: Net) {
    net.bits <= 32 && Value(net.ip) % Size(net.bits) == 0
  }

  /** An address shares the network's prefix. */
  ghost predicate InNet(q: Quad, net: Net)
    requires ValidNet(net)
  {
    Value(q) / Size(net.bits) == Value(net.ip) / Size(net.bits)
  }

  /** In the network, and neither its first (network) nor its last (broadcast) address. */
  ghost predicate Usable(q: Quad, net: Net)
    requires ValidNet(net)
  {
    InNet(q, net) && Value(net.ip) < Value(q) < Value(net.ip) + Size(net.bits) - 1
  }

  // ---- decimal text ----

  predicate Digit(c: char) { '0' <= c <= '9' }

  predicate Digits(s: string) {
    s != "" && forall i :: 0 <= i < |s| ==> Digit(s[i])
  }

  function Number(s: string): nat
    requires forall i :: 0 <= i < |s| ==> Digit(s[i])
  {
    if s == "" then 0 else
      assert Digit(s[|s| - 1]);
      10 * Number(s[..|s| - 1]) + s[|s| - 1] as int - '0' as int
  }

  function Decimal(n: nat): (s: Line)
    ensures Digits(s) && Number(s) == n
    ensures |s| > 1 ==> s[0] != '0'
  {
    var d := [('0' as int + n % 10) as char];
    if n < 10 then assert d[..0] == ""; d
    else
      var front := Decimal(n / 10);
      assert (front + d)[..|front|] == front;
      assert front[0] != '0' by { if |front| == 1 { assert front[..0] == ""; } }
      front + d
  }

  // ---- dotted quads ----

  /** net.IP.String for an IPv4 address. */
  function Format(q: Quad): Line {
    Decimal(q[0]) + "." + (Decimal(q[1]) + "." + (Decimal(q[2]) + "." + Decimal(q[3])))
  }

  /** One field of an address: no empty field, no leading zero, at most 255. */
  predicate IsOctet(s: string) {
    Digits(s) && (|s| > 1 ==> s[0] != '0') && Number(s) <= 255
  }

  function ParseQuad(s: string): Option<Quad> {
    var p := Split(s, '.');
    if |p| == 4 && IsOctet(p[0]) && IsOctet(p[1]) && IsOctet(p[2]) && IsOctet(p[3]) then
      Some([Number(p[0]), Number(p[1]), Number(p[2]), Number(p[3])])
    else None
  }

  /** Every address survives printing and reading back, so distinct addresses print differently. */
  lemma ParseFormat(q: Quad)
    ensures ParseQuad(Format(q)) == Some(q)
  {
    var parts := [Decimal(q[0]), Decimal(q[1]), Decimal(q[2]), Decimal(q[3])];
    forall i | 0 <= i < 4
      ensures '.' !in parts[i]
    {
      assert !Digit('.');
    }
    SplitJoin(parts, '.');
    var last := Decimal(q[2]) + "." + Decimal(q[3]);
    assert parts[2..][1..] == [Decimal(q[3])];
    assert Join(parts[2..], ".") == last;
    assert parts[1..][1..] == parts[2..];
    assert Join(parts[1..], ".") == Decimal(q[1]) + "." + last;
    assert q == [q[0], q[1], q[2], q[3]];
  }

  function FromValue(v: nat): Quad
    requires v < 0x1_0000_0000
  {
    [v / 0x100_0000, v / 0x1_0000 % 256, v / 0x100 % 256, v % 256]
  }

  lemma FromValueInverts(v: nat)
    requires v < 0x1_0000_0000
    ensures Value(FromValue(v)) == v
  {
    var high, mid := v / 0x1_0000, v / 0x100;
    assert v / 0x100_0000 == high / 256 && high == mid / 256;
    assert v == 256 * mid + v % 256 && mid == 256 * high + mid % 256 && high == 256 * (high / 256) + high % 256;
  }

  /** The network that holds an address. */
  function NetOf(q: Quad, bits: nat): (net: Net)
    requires bits <= 32
    ensures ValidNet(net) && net.bits == bits
  {
    var v, size := Value(q), Size(bits);
    MaskedIsAligned(v, size);
    FromValueInverts(v - v % size);
    Net(FromValue(v - v % size), bits)
  }

  /** net.ParseCIDR for IPv4: the network that holds the address, masked to its prefix. */
  function ParseCIDR(s: string): (net: Option<Net>)
    ensures net.Some? ==> ValidNet(net.value)
  {
    var i := Index(s, "/");
    if i < 0 then None
    else
      var ip, mask := ParseQuad(s[..i]), s[i + 1..];
      if ip.None? || !Digits(mask) || Number(mask) > 32 then None else Some(NetOf(ip.value, Number(mask)))
  }

  lemma Multiples(size: int, d: int)
    requires size >= 0
    ensures d >= 1 ==> size * d >= size
    ensures d <= -1 ==> size * d <= -size
  {}

  lemma Associate(a: int, b: int, c: int)
    ensures (a * b) * c == a * (b * c)
  {}

  lemma Distribute(a: int, b: int, c: int)
    ensures a * (b - c) == a * b - a * c
  {}

  /** A number splits in one way into a multiple of the size and a smaller rest. */
  lemma Quotient(v: int, size: nat, k: int, rest: nat)
    requires size > 0 && v == size * k + rest && rest < size
    ensures v / size == k && v % size == rest
  {
    Distribute(size, v / size, k);
    Multiples(size, v / size - k);
  }

  lemma MaskedIsAligned(v: nat, size: nat)
    requires size > 0
    ensures 0 <= v - v % size <= v && (v - v % size) % size == 0
  {
    Quotient(v - v % size, size, v / size, 0);
    if v / size < 0 {
      Multiples(size, v / size);
    }
  }

  // ---- CalculateVLANIPAddress ----

  /** The address chosen for an index: the network's first three octets, and the low byte of 10 + index. */
  function Place(net: Net, index: int): Quad {
    [net.ip[0], net.ip[1], net.ip[2], (10 + index) % 256]
  }

  function AddressFor(subnet: string, index: int): Result<Line> {
    match ParseCIDR(subnet)
    case None => Err("invalid subnet CIDR")
    case Some(net) => Ok(Format(Place(net, index)))
  }

  /** The copy into a new buffer whose last byte is overwritten. */
  method CalculateVLANIPAddress(subnet: string, machineIndex: int) returns (r: Result<Line>)
    ensures r == AddressFor(subnet, machineIndex)
  {
    var net := ParseCIDR(subnet);
    if net.None? {
      return Err("invalid subnet CIDR");
    }
    var baseOffset := 10 + machineIndex;
    var ip := net.value.ip;
    var newIP := new Octet[4];
    for i := 0 to 4
      invariant newIP[..i] == ip[..i]
    {
      newIP[i] := ip[i];
    }
    newIP[3] := baseOffset % 256;
    assert newIP[..] == Place(net.value, machineIndex);
    r := Ok(Format(newIP[..]));
  }

  /** For every index the hash can give, the byte conversion keeps 10 + index: the last octet lies in 10..250. */
  lemma LastOctet(net: Net, index: nat)
    requires index <= 240
    ensures Place(net, index)[3] == 10 + index
    ensures 10 <= Place(net, index)[3] <= 250
  {}

  lemma {:induction false} Pow2Add(m: nat, n: nat)
    ensures Pow2(m + n) == Pow2(m) * Pow2(n)
  {
    if m > 0 {
      Pow2Add(m - 1, n);
      var a, b := Pow2(m - 1), Pow2(n);
      assert (2 * a) * b == 2 * (a * b);
    }
  }

  lemma Pow2Values()
    ensures Pow2(8) == 256
  {
    assert Pow2(4) == 16;
    Pow2Add(4, 4);
  }

  /** A network no longer than /24 starts at a last octet of 0 and holds that octet's whole range. */
  lemma WideNet(net: Net)
    requires ValidNet(net) && net.bits <= 24
    ensures net.ip[3] == 0 && Size(net.bits) >= 256
  {
    var v, size, q := Value(net.ip), Size(net.bits), Pow2(24 - net.bits);
    Pow2Values();
    Pow2Add(8, 24 - net.bits);
    AlignedTo256(v, size, q);
    LastByte(net.ip);
  }

  lemma AlignedTo256(v: nat, size: nat, q: nat)
    requires q > 0 && size == 256 * q && v % size == 0
    ensures v % 256 == 0
  {
    Associate(256, q, v / size);
    Quotient(v, 256, q * (v / size), 0);
  }

  lemma LastByte(q: Quad)
    ensures Value(q) == 256 * (Value(q) / 256) + q[3]
    ensures Value(q) % 256 == q[3]
  {}

  /** The chosen address differs from the network's in the last octet alone. */
  lemma PlaceMoves(net: Net, index: nat)
    requires index <= 240
    ensures Value(Place(net, index)) == Value(net.ip) - net.ip[3] + 10 + index
  {}

  /** A number in the block of an aligned one has the same quotient, and one outside of it has another. */
  lemma SameBlock(v: nat, w: nat, size: nat)
    requires size > 0 && v % size == 0
    ensures w / size == v / size <==> v <= w < v + size
  {
    Quotient(v, size, v / size, 0);
    if v <= w < v + size {
      Quotient(w, size, v / size, w - v);
    }
  }

  lemma UsableMeans(net: Net, index: nat)
    requires ValidNet(net) && index <= 240
    ensures Usable(Place(net, index), net) <==> net.ip[3] < 10 + index < net.ip[3] + Size(net.bits) - 1
  {
    PlaceMoves(net, index);
    SameBlock(Value(net.ip), Value(Place(net, index)), Size(net.bits));
  }

  /**
   * Exactly when the chosen address is a usable host of the subnet: always for prefixes up to /24, and for longer
   * ones exactly when 10 + index falls strictly inside the block of last octets that the subnet owns.
   */
  lemma AddressIsUsable(net: Net, index: nat)
    requires ValidNet(net) && index <= 240
    ensures Usable(Place(net, index), net) <==>
            net.bits <= 24 || net.ip[3] < 10 + index < net.ip[3] + Size(net.bits) - 1
  {
    UsableMeans(net, index);
    if net.bits <= 24 {
      WideNet(net);
    }
  }

  /** Two indices give the same printed address only if they are equal. */
  lemma AddressesAreDistinct(net: Net, i: nat, j: nat)
    requires i <= 240 && j <= 240
    ensures Format(Place(net, i)) == Format(Place(net, j)) <==> i == j
  {
    ParseFormat(Place(net, i));
    ParseFormat(Place(net, j));
    LastOctet(net, i);
    LastOctet(net, j);
  }

  /** Two machines get the same address in a subnet exactly when the 64-bit hashes of their names give the same index. */
  lemma NamesShareAddress(subnet: string, a: string, b: string)
    requires ParseCIDR(subnet).Some?
    ensures AddressFor(subnet, MachineIndex.IndexOf(a)) == AddressFor(subnet, MachineIndex.IndexOf(b)) <==>
            MachineIndex.Abs(MachineIndex.Wrap(MachineIndex.Polynomial(a))) % 241 ==
            MachineIndex.Abs(MachineIndex.Wrap(MachineIndex.Polynomial(b))) % 241
  {
    AddressesAreDistinct(ParseCIDR(subnet).value, MachineIndex.IndexOf(a), MachineIndex.IndexOf(b));
  }

  // ---- a subnet that does not contain its machine's address ----

  /** The usual text of a network. */
  function CIDR(net: Net): string {
    Format(net.ip) + "/" + Decimal(net.bits)
  }

  lemma {:induction false} FirstSlash(a: string, b: string)
    requires '/' !in a
    ensures Index(a + "/" + b, "/") == |a|
  {
    var s := a + "/" + b;
    assert At(s, "/", |a|);
    forall j: nat | j < |a| ensures !At(s, "/", j) {
      assert s[j..j + 1] == [a[j]];
    }
  }

  lemma FormatHasNoSlash(q: Quad)
    ensures '/' !in Format(q)
  {
    assert !Digit('/');
  }

  lemma FromOwnValue(q: Quad)
    ensures Value(q) < 0x1_0000_0000 && FromValue(Value(q)) == q
  {
    var a: int, b: int, c: int, d: int := q[0], q[1], q[2], q[3];
    var v := Value(q);
    Quotient(v, 0x100_0000, a, 0x1_0000 * b + 0x100 * c + d);
    Quotient(v, 0x1_0000, 0x100 * a + b, 0x100 * c + d);
    Quotient(v, 0x100, 0x1_0000 * a + 0x100 * b + c, d);
    Quotient(0x100 * a + b, 256, a, b);
    Quotient(0x1_0000 * a + 0x100 * b + c, 256, 0x100 * a + b, c);
    assert q == [a, b, c, d];
  }

  lemma Block(v: nat, size: nat)
    requires size > 0
    ensures var first := v - v % size; 0 <= first <= v < first + size && first % size == 0 && first / size == v / size
  {
    MaskedIsAligned(v, size);
    Quotient(v - v % size, size, v / size, 0);
  }

  lemma NetHolds(q: Quad, bits: nat)
    requires bits <= 32
    ensures var net := NetOf(q, bits);
            ValidNet(net) && InNet(q, net) && Value(net.ip) <= Value(q) < Value(net.ip) + Size(bits)
  {
    FromOwnValue(q);
    Block(Value(q), Size(bits));
    FromValueInverts(Value(q) - Value(q) % Size(bits));
  }

  lemma ParsesToNet(q: Quad, bits: nat)
    requires bits <= 32
    ensures ParseCIDR(Format(q) + "/" + Decimal(bits)) == Some(NetOf(q, bits))
  {
    var s, mask := Format(q) + "/" + Decimal(bits), Decimal(bits);
    FormatHasNoSlash(q);
    FirstSlash(Format(q), mask);
    assert s[..|Format(q)|] == Format(q) && s[|Format(q)| + 1..] == mask;
    ParseFormat(q);
  }

  /** Every network survives printing and reading back. */
  lemma ParseCIDRFormat(net: Net)
    requires ValidNet(net)
    ensures ParseCIDR(CIDR(net)) == Some(net)
  {
    ParsesToNet(net.ip, net.bits);
    FromOwnValue(net.ip);
  }

  /** A text with host bits set names the network that holds the address: its first address, under the same prefix. */
  lemma ParseCIDRMasks(q: Quad, bits: nat) returns (net: Net)
    requires bits <= 32
    ensures ParseCIDR(Format(q) + "/" + Decimal(bits)) == Some(net)
    ensures net.bits == bits && ValidNet(net) && InNet(q, net)
    ensures Value(net.ip) <= Value(q) < Value(net.ip) + Size(bits)
  {
    ParsesToNet(q, bits);
    net := NetOf(q, bits);
    NetHolds(q, bits);
  }

  /** Half a /24: the first machine's address, 10.0.0.10, lies outside of 10.0.0.128/25. */
  lemma AddressOutsideSubnet() returns (net: Net)
    ensures net == Net([10, 0, 0, 128], 25) && ValidNet(net)
    ensures AddressFor(CIDR(net), 0) == Ok(Format([10, 0, 0, 10]))
    ensures !InNet([10, 0, 0, 10], net)
  {
    net := Net([10, 0, 0, 128], 25);
    assert Pow2(4) == 16 && Pow2(3) == 8;
    Pow2Add(4, 3);
    ParseCIDRFormat(net);
    assert Place(net, 0) == [10, 0, 0, 10];
  }
}
