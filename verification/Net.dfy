/** Arithmetic on the bytes of IP addresses. */
module Net {
  import opened Text

  type Byte = bv8

  lemma Increment(x: Byte)
    ensures x == 255 ==> x + 1 == 0 && x as int == 255
    ensures x != 255 ==> x + 1 != 0 && (x + 1) as int == x as int + 1
  {
  }

  lemma SameByte(x: Byte, y: Byte)
    ensures x as int == y as int ==> x == y
  {
    if x as int == y as int {
      assert x == (x as int) as bv8 == (y as int) as bv8 == y;
    }
  }

  // The byte for a number
  function ByteOf(k: nat): (x: Byte)
    requires k < 256
    ensures x as int == k
  {
    if k == 0 then 0
    else
      var less := ByteOf(k - 1);
      Increment(less);
      less + 1
  }

  // ----- addresses as big-endian numbers -----

  function Value(s: seq<Byte>): nat
  {
    if s == [] then 0 else 256 * Value(s[..|s| - 1]) + s[|s| - 1] as int
  }

  function Pow256(k: nat): nat
  {
    if k == 0 then 1 else 256 * Pow256(k - 1)
  }

  // One more, with carry
  function Next(s: seq<Byte>): (t: seq<Byte>)
    ensures |t| == |s|
  {
    if s == [] then []
    else if s[|s| - 1] == 255 then Next(s[..|s| - 1]) + [0]
    else s[..|s| - 1] + [s[|s| - 1] + 1]
  }

  lemma {:induction false} NextIsSuccessor(s: seq<Byte>)
    ensures Value(s) < Pow256(|s|)
    ensures Value(Next(s)) == if Value(s) + 1 == Pow256(|s|) then 0 else Value(s) + 1
  {
    if s != [] {
      var front, last := s[..|s| - 1], s[|s| - 1];
      NextIsSuccessor(front);
      Increment(last);
      if last == 255 {
        assert Next(s)[..|s| - 1] == Next(front);
      } else {
        assert Next(s)[..|s| - 1] == front;
      }
    }
  }

  // One step of the carry: what follows position j has turned from 255 to 0.
  lemma NextAt(was: seq<Byte>, j: nat, tail: seq<Byte>)
    requires j < |was|
    ensures Next(was[..j + 1]) + tail ==
      if was[j] == 255 then Next(was[..j]) + ([0] + tail) else was[..j] + ([was[j] + 1] + tail)
  {
    assert was[..j + 1][..j] == was[..j];
    Reassociate(Next(was[..j]), [0], tail);
    Reassociate(was[..j], [was[j] + 1], tail);
  }

  // Storing one byte between what is before and what is behind it
  method Store(a: array<Byte>, j: nat, b: Byte, ghost before: seq<Byte>, ghost behind: seq<Byte>)
    requires j < a.Length && a[..j] == before && a[j + 1..] == behind
    modifies a
    ensures a[..j] == before && a[j..] == [b] + behind && a[..] == before + ([b] + behind)
  {
    a[j] := b;
    assert a[j..] == [b] + a[j + 1..];
    assert a[..] == a[..j] + a[j..];
  }

  /** Adds one in place, modulo 256 to the length. */
  method CidrFirstIP(cidr: array<Byte>)
    modifies cidr
    ensures cidr[..] == Next(old(cidr[..]))
  {
    ghost var was := cidr[..];
    var j := cidr.Length;
    assert was[..j] == was && was[j..] == [];
    while j > 0
      invariant 0 <= j <= cidr.Length
      invariant cidr[..j] == was[..j] && Next(was) == Next(was[..j]) + cidr[j..]
    {
      j := j - 1;
      NextAt(was, j, cidr[j + 1..]);
      Increment(was[j]);
      assert cidr[j] == cidr[..j + 1][j] == was[j] && cidr[..j] == cidr[..j + 1][..j] == was[..j];
      Store(cidr, j, cidr[j] + 1, was[..j], cidr[j + 1..]);
      if cidr[j] > 0 {
        return;
      }
    }
    assert was[..0] == [] && cidr[..] == cidr[0..];
  }

  // ----- the broadcast address -----

  // net.IP.To4: four bytes, or the last four of an IPv4-mapped address
  function To4(ip: seq<Byte>): Option<seq<Byte>>
  {
    if |ip| == 4 then Some(ip)
    else if |ip| == 16 && (forall i :: 0 <= i < 10 ==> ip[i] == 0) && ip[10] == 255 && ip[11] == 255 then Some(ip[12..])
    else None
  }

  // Both addresses have the same network part.
  ghost predicate SameNetwork(a: seq<Byte>, b: seq<Byte>, mask: seq<Byte>)
    requires |a| == |b| <= |mask|
  {
    forall i :: 0 <= i < |a| ==> a[i] & mask[i] == b[i] & mask[i]
  }

  // A byte with the host bits set is the greatest that agrees on the mask's bits.
  function HostByte(ip: Byte, mask: Byte): (host: Byte)
    ensures host & mask == ip & mask
  {
    ip | !mask
  }

  lemma GreatestByte(x: Byte, ip: Byte, mask: Byte)
    ensures x & mask == ip & mask ==> x <= HostByte(ip, mask)
  {
  }

  lemma ByteOrder(x: Byte, y: Byte)
    ensures x <= y ==> x as int <= y as int
  {
  }

  ghost predicate NoGreater(a: seq<Byte>, b: seq<Byte>)
    requires |a| == |b|
  {
    forall i :: 0 <= i < |a| ==> a[i] <= b[i]
  }

  lemma {:induction false} ValueGrows(a: seq<Byte>, b: seq<Byte>)
    requires |a| == |b| && NoGreater(a, b)
    ensures Value(a) <= Value(b)
  {
    if a != [] {
      ValueGrows(a[..|a| - 1], b[..|b| - 1]);
      ByteOrder(a[|a| - 1], b[|b| - 1]);
    }
  }

  lemma {:induction false} NoGreaterButEqual(a: seq<Byte>, b: seq<Byte>)
    requires |a| == |b| && NoGreater(a, b) && Value(a) == Value(b)
    ensures a == b
  {
    if a != [] {
      var front, back, x, y := a[..|a| - 1], b[..|b| - 1], a[|a| - 1], b[|b| - 1];
      ValueGrows(front, back);
      ByteOrder(x, y);
      SameSum(Value(front), Value(back), x as int, y as int);
      SameByte(x, y);
      NoGreaterButEqual(front, back);
      Reassembled(a, b);
    }
  }

  lemma Reassembled<T>(a: seq<T>, b: seq<T>)
    requires |a| == |b| > 0 && a[..|a| - 1] == b[..|b| - 1] && a[|a| - 1] == b[|b| - 1]
    ensures a == b
  {
    FrontAndLast(a);
    FrontAndLast(b);
  }

  lemma SameSum(m: nat, n: nat, x: nat, y: nat)
    requires m <= n && x <= y && 256 * m + x == 256 * n + y
    ensures m == n && x == y
  {
  }

  // The bytes with the host bits set, by as many bytes of the mask
  function HostBits(ip4: seq<Byte>, mask: seq<Byte>): (last: seq<Byte>)
    requires |ip4| <= |mask|
    ensures |last| == |ip4|
  {
    seq(|ip4|, i requires 0 <= i < |ip4| => HostByte(ip4[i], mask[i]))
  }

  // The host bits are set in a copy.
  method WithHostBits(ip4: seq<Byte>, mask: seq<Byte>) returns (last: seq<Byte>)
    requires |ip4| == 4 <= |mask|
    ensures last == HostBits(ip4, mask)
  {
    var bytes := new Byte[4](i requires 0 <= i < 4 => ip4[i]);
    for i := 0 to 4
      invariant forall j :: 0 <= j < i ==> bytes[j] == HostByte(ip4[j], mask[j])
      invariant forall j :: i <= j < 4 ==> bytes[j] == ip4[j]
    {
      bytes[i] := bytes[i] | !mask[i];
    }
    last := bytes[..];
  }

  lemma HostBitsAreGreatest(ip4: seq<Byte>, mask: seq<Byte>, a: seq<Byte>)
    requires |ip4| == |a| <= |mask|
    ensures SameNetwork(HostBits(ip4, mask), ip4, mask)
    ensures SameNetwork(a, ip4, mask) ==> NoGreater(a, HostBits(ip4, mask))
  {
    forall i | 0 <= i < |ip4| ensures a[i] & mask[i] == ip4[i] & mask[i] ==> a[i] <= HostByte(ip4[i], mask[i]) {
      GreatestByte(a[i], ip4[i], mask[i]);
    }
  }

  // The greatest address of a network
  ghost predicate IsBroadcast(last: seq<Byte>, ip4: seq<Byte>, mask: seq<Byte>)
    requires |ip4| <= |mask|
  {
    |last| == |ip4| && SameNetwork(last, ip4, mask) &&
    forall a: seq<Byte> :: |a| == |ip4| && SameNetwork(a, ip4, mask) ==> Value(a) <= Value(last)
  }

  lemma BroadcastIs(last: seq<Byte>, ip4: seq<Byte>, mask: seq<Byte>)
    requires |ip4| <= |mask|
    ensures IsBroadcast(last, ip4, mask) <==> last == HostBits(ip4, mask)
  {
    var greatest := HostBits(ip4, mask);
    HostBitsAreGreatest(ip4, mask, greatest);
    forall a: seq<Byte> | |a| == |ip4| && SameNetwork(a, ip4, mask) ensures Value(a) <= Value(greatest) {
      HostBitsAreGreatest(ip4, mask, a);
      ValueGrows(a, greatest);
    }
    if IsBroadcast(last, ip4, mask) {
      HostBitsAreGreatest(ip4, mask, last);
      assert Value(greatest) <= Value(last) && Value(last) <= Value(greatest);
      NoGreaterButEqual(last, greatest);
    }
  }

  // The mask of the IPv4 part: the last four bytes of one for IPv6
  function OwnMask(mask: seq<Byte>): (own: seq<Byte>)
    requires |mask| >= 4
    ensures |own| == 4
  {
    mask[|mask| - 4..]
  }

  /** The first four bytes of the mask are taken, whatever its length; none for what is no IPv4 address. */
  method IP4BroadcastAddress(ip: seq<Byte>, mask: seq<Byte>) returns (last: Option<seq<Byte>>)
    requires To4(ip).Some? ==> |mask| >= 4
    ensures last.None? <==> To4(ip).None?
    ensures last.Some? ==> last.value == HostBits(To4(ip).value, mask)
    ensures last.Some? && |mask| == 4 ==> IsBroadcast(last.value, To4(ip).value, mask)
  {
    var ip4 := To4(ip);
    if ip4.None? {
      return None;
    }
    var bytes := WithHostBits(ip4.value, mask);
    if |mask| == 4 {
      BroadcastIs(bytes, ip4.value, mask);
    }
    last := Some(bytes);
  }

  // The result is the broadcast address exactly if the two parts of the mask set the same host bits.
  lemma BroadcastExactly(ip4: seq<Byte>, mask: seq<Byte>)
    requires |ip4| == 4 <= |mask|
    ensures IsBroadcast(HostBits(ip4, mask), ip4, OwnMask(mask)) <==>
      forall i :: 0 <= i < 4 ==> HostByte(ip4[i], mask[i]) == HostByte(ip4[i], OwnMask(mask)[i])
  {
    var last, greatest := HostBits(ip4, mask), HostBits(ip4, OwnMask(mask));
    BroadcastIs(last, ip4, OwnMask(mask));
    forall i | 0 <= i < 4
      ensures last[i] == HostByte(ip4[i], mask[i]) && greatest[i] == HostByte(ip4[i], OwnMask(mask)[i])
    {
    }
    assert last == greatest <==> forall i :: 0 <= i < 4 ==> last[i] == greatest[i];
  }

  // ::ffff:10.0.0.0/104 is 10.0.0.0/8 as an IPv6 network: its address comes back, not 10.255.255.255.
  lemma MappedNetworkFails()
    ensures var ones: seq<Byte> := seq(13, _ => 255);
      var mask := ones + [0, 0, 0];
      OwnMask(mask) == [255, 0, 0, 0] && HostBits([10, 0, 0, 0], mask) == [10, 0, 0, 0] &&
      HostBits([10, 0, 0, 0], OwnMask(mask)) == [10, 255, 255, 255] &&
      !IsBroadcast(HostBits([10, 0, 0, 0], mask), [10, 0, 0, 0], OwnMask(mask))
  {
    var ones: seq<Byte> := seq(13, _ => 255);
    var mask := ones + [0, 0, 0];
    var ip: seq<Byte> := [10, 0, 0, 0];
    assert OwnMask(mask) == [255, 0, 0, 0];
    assert HostBits(ip, mask) == ip;
    assert HostBits(ip, OwnMask(mask)) == [10, 255, 255, 255];
    BroadcastIs(ip, ip, OwnMask(mask));
  }
}
