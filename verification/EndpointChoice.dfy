/** Choosing the control-plane endpoint from a machine's addresses. */
module EndpointChoice {
  import opened Prelude
  import opened Api
  import MachineFlow

  /** The types that the first loop of setupControlPlaneEndpoint accepts, and those of its fallback. */
  predicate AnyIP(kind: AddressKind) { kind == InternalIP || kind == ExternalIP }
  predicate OnlyInternal(kind: AddressKind) { kind == InternalIP }

  /** The first address of an accepted type; empty if there is none. */
  function First(addresses: seq<Address>, accepts: AddressKind -> bool): string {
    if addresses == [] then ""
    else if accepts(addresses[0].kind) then addresses[0].value
    else First(addresses[1..], accepts)
  }

  function Select(addresses: seq<Address>): string {
    var ip := First(addresses, AnyIP);
    if ip != "" then ip else First(addresses, OnlyInternal)
  }

  lemma FirstStep(addresses: seq<Address>, accepts: AddressKind -> bool, i: nat)
    requires i < |addresses|
    ensures First(addresses[i..], accepts) ==
            if accepts(addresses[i].kind) then addresses[i].value else First(addresses[i + 1..], accepts)
  {
    assert addresses[i..][1..] == addresses[i + 1..];
  }

  /** The two loops: any IP, and an internal one if that gave nothing. */
  method SelectIP(addresses: seq<Address>) returns (ip: string)
    ensures ip == Select(addresses)
  {
    ip := "";
    for i := 0 to |addresses|
      invariant ip == "" && First(addresses, AnyIP) == First(addresses[i..], AnyIP)
    {
      FirstStep(addresses, AnyIP, i);
      if addresses[i].kind == InternalIP || addresses[i].kind == ExternalIP {
        ip := addresses[i].value;
        break;
      }
    }
    assert ip == First(addresses, AnyIP);
    if ip == "" {
      for i := 0 to |addresses|
        invariant First(addresses, OnlyInternal) == First(addresses[i..], OnlyInternal)
      {
        FirstStep(addresses, OnlyInternal, i);
        if addresses[i].kind == InternalIP {
          ip := addresses[i].value;
          break;
        }
      }
    }
  }

  lemma {:induction false} FirstSkips(addresses: seq<Address>, accepts: AddressKind -> bool, i: nat)
    requires i < |addresses| && accepts(addresses[i].kind)
    requires forall j :: 0 <= j < i ==> !accepts(addresses[j].kind)
    ensures First(addresses, accepts) == addresses[i].value
  {
    if i > 0 {
      FirstSkips(addresses[1..], accepts, i - 1);
    }
  }

  lemma {:induction false} FirstOfNone(addresses: seq<Address>, accepts: AddressKind -> bool)
    requires forall j :: 0 <= j < |addresses| ==> !accepts(addresses[j].kind)
    ensures First(addresses, accepts) == ""
  {
    if addresses != [] {
      FirstOfNone(addresses[1..], accepts);
    }
  }

  lemma {:induction false} FirstIsFound(addresses: seq<Address>, accepts: AddressKind -> bool) returns (i: nat)
    requires First(addresses, accepts) != ""
    ensures i < |addresses| && accepts(addresses[i].kind) && First(addresses, accepts) == addresses[i].value
  {
    if accepts(addresses[0].kind) {
      i := 0;
    } else {
      i := FirstIsFound(addresses[1..], accepts);
      i := i + 1;
    }
  }

  /**
   * The two loops are one search for the first IP, unless that IP is empty while an internal one is not; so for
   * addresses that are all non-empty they always are.
   */
  lemma {:induction false} LoopsAreOneSearch(addresses: seq<Address>)
    ensures Select(addresses) == First(addresses, AnyIP) <==>
            First(addresses, AnyIP) != "" || First(addresses, OnlyInternal) == ""
    ensures (forall i :: 0 <= i < |addresses| ==> addresses[i].value != "") ==> Select(addresses) == First(addresses, AnyIP)
  {
    if (forall i :: 0 <= i < |addresses| ==> addresses[i].value != "") && First(addresses, OnlyInternal) != "" {
      var i := FirstIsFound(addresses, OnlyInternal);
      NonEmptyIsFound(addresses, i);
    }
  }

  lemma {:induction false} NonEmptyIsFound(addresses: seq<Address>, i: nat)
    requires i < |addresses| && AnyIP(addresses[i].kind)
    requires forall j :: 0 <= j < |addresses| ==> addresses[j].value != ""
    ensures First(addresses, AnyIP) != ""
  {
    if !AnyIP(addresses[0].kind) {
      NonEmptyIsFound(addresses[1..], i - 1);
    }
  }

  /** Of the addresses that the machine controller writes, the endpoint is the server's first IP. */
  lemma SelectsFirstReportedIP(server: MachineFlow.Server)
    ensures Select(MachineFlow.AddressesOf(server)) == if server.ips == [] then "" else server.ips[0]
  {
    var addresses := MachineFlow.AddressesOf(server);
    FirstOfNone(addresses, OnlyInternal);
    if server.ips == [] {
      FirstOfNone(addresses, AnyIP);
    } else {
      FirstSkips(addresses, AnyIP, 0);
    }
  }
}
