/** The static addresses of the masters and the default subnets of the agent pools. */
module Addresses {
  import opened Text
  import opened Decimal
  import Net

  // Four octets in dotted form
  function Dotted(octets: seq<nat>): string
    requires |octets| >= 1
  {
    Join(Numerals(octets), '.')
  }

  function Numerals(octets: seq<nat>): (parts: seq<string>)
    ensures |parts| == |octets| && forall i :: 0 <= i < |octets| ==> parts[i] == Digits(octets[i])
  {
    seq(|octets|, i requires 0 <= i < |octets| => Digits(octets[i]))
  }

  lemma DottedInjective(p: seq<nat>, q: seq<nat>)
    requires |p| >= 1 && |q| >= 1 && Dotted(p) == Dotted(q)
    ensures p == q
  {
    SplitJoin(Numerals(p), '.');
    SplitJoin(Numerals(q), '.');
    assert |p| == |q|;
    forall i | 0 <= i < |p| ensures p[i] == q[i] {
      assert Numerals(p)[i] == Numerals(q)[i];
      DigitsInjective(p[i], q[i]);
    }
  }

  // ----- generateIPList -----

  datatype Quad = Quad(a: nat, b: nat, c: nat, d: nat)
  {
    predicate Valid() {
      a < 256 && b < 256 && c < 256 && d < 256
    }

    function Text(): string {
      Dotted([a, b, c, d])
    }

    function Number(): nat {
      ((a * 256 + b) * 256 + c) * 256 + d
    }
  }

  // The last byte wraps around, without a carry.
  function Nth(first: Quad, i: nat): Quad
  {
    first.(d := (first.d + i % 256) % 256)
  }

  method GenerateIPList(count: nat, first: Quad) returns (ret: array<string>)
    requires first.Valid()
    ensures fresh(ret) && ret.Length == count && forall i :: 0 <= i < count ==> ret[i] == Nth(first, i).Text()
  {
    ret := new string[count];
    for i := 0 to count
      invariant forall j :: 0 <= j < i ==> ret[j] == Nth(first, j).Text()
    {
      ret[i] := Dotted([first.a, first.b, first.c, (first.d + i % 256) % 256]);
    }
  }

  lemma SameTextSameOctet(first: Quad, i: nat, j: nat)
    ensures Nth(first, i).Text() == Nth(first, j).Text() <==> i % 256 == j % 256
  {
    var p, q := Nth(first, i), Nth(first, j);
    if p.Text() == q.Text() {
      DottedInjective([p.a, p.b, p.c, p.d], [q.a, q.b, q.c, q.d]);
      assert [p.a, p.b, p.c, p.d][3] == [q.a, q.b, q.c, q.d][3];
    }
  }

  // No address is listed twice exactly up to 256 of them.
  lemma ListIsDistinct(first: Quad, count: nat)
    ensures (forall i, j :: 0 <= i < j < count ==> Nth(first, i).Text() != Nth(first, j).Text()) <==> count <= 256
  {
    forall i, j | 0 <= i < j < count ensures Nth(first, i).Text() == Nth(first, j).Text() <==> i % 256 == j % 256 {
      SameTextSameOctet(first, i, j);
    }
    if count > 256 {
      SameTextSameOctet(first, 0, 256);
    }
  }

  // The list is the run of consecutive addresses exactly if the last octet does not overflow.
  lemma ListIsConsecutive(first: Quad, count: nat)
    requires first.Valid()
    ensures (forall i :: 0 <= i < count ==> Nth(first, i).Number() == first.Number() + i) <==> first.d + count <= 256
  {
    if first.d + count > 256 {
      assert Nth(first, 256 - first.d).Number() < first.Number() + (256 - first.d);
    }
  }

  // ----- setAgentNetworkDefaults -----

  class AgentPoolProfile {
    var subnet: string

    constructor ()
    {
      subnet := "";
    }
  }

  // The k-th pool's default subnet
  function Subnet(k: nat): string
  {
    "10." + Digits(k) + ".0.0/16"
  }

  /** Without a custom network, each pool in turn gets a subnet of its own. */
  method SetAgentSubnets(profiles: seq<AgentPoolProfile>, hasMaster: bool, customVnet: bool)
    requires forall j, k :: 0 <= j < k < |profiles| ==> profiles[j] != profiles[k]
    modifies profiles
    ensures hasMaster && !customVnet ==> forall k :: 0 <= k < |profiles| ==> profiles[k].subnet == Subnet(k)
    ensures !hasMaster || customVnet ==> forall p :: p in profiles ==> p.subnet == old(p.subnet)
  {
    if hasMaster && !customVnet {
      var subnetCounter := 0;
      for k := 0 to |profiles|
        invariant subnetCounter == k
        invariant forall j :: 0 <= j < k ==> profiles[j].subnet == Subnet(j)
      {
        profiles[k].subnet := "10." + Itoa(subnetCounter) + ".0.0/16";
        subnetCounter := subnetCounter + 1;
      }
    }
  }

  // ----- what a subnet's text stands for -----

  // A decimal numeral below the bound
  function Bounded(s: string, bound: nat): Option<nat>
  {
    if s != [] && AllDigits(s) && Value(s) < bound then Some(Value(s)) else None
  }

  datatype Network = Network(address: seq<Net.Byte>, prefix: nat)

  // net.ParseCIDR for IPv4: four octets and the length of the prefix
  function ParseCIDR(text: string): Option<Network>
  {
    var halves := Split(text, '/');
    if |halves| != 2 then None
    else
      var octets, prefix := Split(halves[0], '.'), Bounded(halves[1], 33);
      if |octets| != 4 || prefix.None? then None
      else
        var a, b, c, d := Bounded(octets[0], 256), Bounded(octets[1], 256), Bounded(octets[2], 256),
          Bounded(octets[3], 256);
        if a.None? || b.None? || c.None? || d.None? then None
        else
          Some(Network([Net.ByteOf(a.value), Net.ByteOf(b.value), Net.ByteOf(c.value), Net.ByteOf(d.value)],
            prefix.value))
  }

  // net.CIDRMask: byte i of a mask of `ones` leading bits
  function MaskByte(ones: nat, i: nat): Net.Byte
  {
    if ones >= 8 * (i + 1) then 255
    else if ones <= 8 * i then 0
    else !(255 >> (ones - 8 * i))
  }

  function Mask(ones: nat): (mask: seq<Net.Byte>)
    ensures |mask| == 4
  {
    [MaskByte(ones, 0), MaskByte(ones, 1), MaskByte(ones, 2), MaskByte(ones, 3)]
  }

  // The addresses that agree with the network on the bits of its prefix
  ghost predicate Covers(subnet: string, address: seq<Net.Byte>)
  {
    ParseCIDR(subnet).Some? && |address| == 4 &&
    Net.SameNetwork(address, ParseCIDR(subnet).value.address, Mask(ParseCIDR(subnet).value.prefix))
  }

  lemma DottedSubnet(k: nat)
    ensures Numerals([10, k, 0, 0]) == ["10"] + (["" + Digits(k)] + (["0"] + ["0"]))
    ensures Dotted([10, k, 0, 0]) == "10" + (['.'] + (Digits(k) + (['.'] + ("0" + (['.'] + "0")))))
  {
    var middle := Digits(k);
    assert Digits(1) == "1" && Digits(10) == Digits(1) + "0" && Digits(0) == "0";
    assert "" + middle == middle;
    var octets, parts := Numerals([10, k, 0, 0]), ["10"] + ([middle] + (["0"] + ["0"]));
    assert octets[0] == parts[0] && octets[1] == parts[1] && octets[2] == parts[2] && octets[3] == parts[3];
    assert octets == parts;
    JoinHead("10", [middle] + (["0"] + ["0"]), '.');
    JoinHead(middle, ["0"] + ["0"], '.');
    JoinHead("0", ["0"], '.');
  }

  lemma DottedParts(k: nat)
    ensures Split(Dotted([10, k, 0, 0]), '.') == ["10", Digits(k), "0", "0"]
  {
    DottedSubnet(k);
    var octets := Numerals([10, k, 0, 0]);
    SplitJoin(octets, '.');
    assert octets == ["10", Digits(k), "0", "0"];
  }

  lemma SubnetParts(k: nat)
    ensures Split(Subnet(k), '/') == [Dotted([10, k, 0, 0]), "16"]
  {
    DottedSubnet(k);
    var middle, dotted := Digits(k), Dotted([10, k, 0, 0]);
    JoinHead(dotted, ["16"], '/');
    assert Subnet(k) == dotted + (['/'] + "16");
    assert '/' !in dotted;
    SplitJoin([dotted] + ["16"], '/');
  }

  lemma SubnetNetwork(k: nat)
    ensures ParseCIDR(Subnet(k)) == if k < 256 then Some(Network([10, Net.ByteOf(k), 0, 0], 16)) else None
  {
    SubnetParts(k);
    DottedParts(k);
    ValueOfDigits(k);
    ValueOfDigits(10);
    ValueOfDigits(0);
    ValueOfDigits(16);
    assert Digits(10) == Digits(1) + "0" == "10" && Digits(0) == "0" && Digits(16) == Digits(1) + "6" == "16";
  }

  lemma AllOrNone(x: Net.Byte, y: Net.Byte, mask: Net.Byte)
    ensures mask == 255 ==> (x & mask == y & mask <==> x == y)
    ensures mask == 0 ==> x & mask == y & mask
  {
  }

  lemma MaskOfSixteen()
    ensures Mask(16)[0] == 255 && Mask(16)[1] == 255 && Mask(16)[2] == 0 && Mask(16)[3] == 0
  {
  }

  lemma SameNetworkSameBytes(a: seq<Net.Byte>, b: seq<Net.Byte>, mask: seq<Net.Byte>)
    requires |a| == |b| == |mask| == 4 && mask[0] == 255 && mask[1] == 255
    ensures Net.SameNetwork(a, b, mask) ==> a[0] == b[0] && a[1] == b[1]
  {
    AllOrNone(a[0], b[0], mask[0]);
    AllOrNone(a[1], b[1], mask[1]);
  }

  lemma SameBytesSameNetwork(a: seq<Net.Byte>, b: seq<Net.Byte>, mask: seq<Net.Byte>)
    requires |a| == |b| == |mask| == 4 && mask[2] == 0 && mask[3] == 0
    requires a[0] == b[0] && a[1] == b[1]
    ensures Net.SameNetwork(a, b, mask)
  {
    forall i | 0 <= i < 4 ensures a[i] & mask[i] == b[i] & mask[i] {
      if i < 2 {
        assert a[i] == b[i];
      } else {
        assert mask[i] == 0;
      }
    }
  }

  // Subnet k is 10.k.0.0/16: a network for k below 256, that of the addresses with these first two bytes.
  lemma SubnetIs(k: nat, address: seq<Net.Byte>)
    requires |address| == 4
    ensures Covers(Subnet(k), address) <==> address[0] == 10 && address[1] as int == k
  {
    SubnetNetwork(k);
    if k < 256 {
      Net.SameByte(address[1], Net.ByteOf(k));
      var network := [10, Net.ByteOf(k), 0, 0];
      MaskOfSixteen();
      SameNetworkSameBytes(address, network, Mask(16));
      if address[0] == network[0] && address[1] == network[1] {
        SameBytesSameNetwork(address, network, Mask(16));
      }
    }
  }

  // The subnets from the 256th on cover nothing.
  lemma SubnetHasAddresses(k: nat)
    ensures (exists a: seq<Net.Byte> :: Covers(Subnet(k), a)) <==> k < 256
  {
    if k < 256 {
      var first := [10, Net.ByteOf(k), 0, 0];
      SubnetIs(k, first);
    } else {
      SubnetNetwork(k);
    }
  }

  // No two of the subnets share an address.
  lemma SubnetsAreDisjoint(j: nat, k: nat, address: seq<Net.Byte>)
    requires j != k
    ensures !Covers(Subnet(j), address) || !Covers(Subnet(k), address)
  {
    if |address| == 4 {
      SubnetIs(j, address);
      SubnetIs(k, address);
    }
  }
}
