/** Dividing an IPv4 network into smaller ones, with the arithmetic of unsigned 32-bit
    numbers. Networks are written as in section 3.1 of RFC 4632. */
module Subnetworks {
  import opened Division

  type byte = x: int | 0 <= x < 256

  const WORD := 0x1_0000_0000
  const MAX_INT := 0x7fff_ffff_ffff_ffff

  function Pow2(n: nat): (r: nat)
    ensures r >= 1
  {
    if n == 0 then 1 else 2 * Pow2(n - 1)
  }

  /** `1 << n` on an unsigned 32-bit number. */
  function Shifted(n: nat): nat {
    if n < 32 then Pow2(n) else 0
  }

  /** `uint(a) - uint(b)`. */
  function Minus(a: nat, b: nat): nat {
    (a - b) % 0x1_0000_0000_0000_0000
  }

  function Uint32(b: seq<byte>): nat
    requires |b| == 4
  {
    (b[0] as int) * 0x100_0000 + (b[1] as int) * 0x1_0000 + (b[2] as int) * 0x100 + b[3] as int
  }

  /** Big-endian bytes. */
  function Bytes(x: nat): (b: seq<byte>)
    requires x < WORD
    ensures |b| == 4
  {
    var y := x / 0x100;
    var z := y / 0x100;
    [z / 0x100, z % 0x100, y % 0x100, x % 0x100]
  }

  lemma BytesRoundTrip(x: nat)
    requires x < WORD
    ensures Uint32(Bytes(x)) == x
  {
  }

  /** An address and the number of leading bits that the mask keeps. */
  datatype Network = Network(ip: seq<byte>, ones: nat)

  ghost predicate WellFormed(n: Network) {
    |n.ip| == 4 && n.ones <= 32
  }

  ghost function Base(n: Network): nat
    requires WellFormed(n)
  {
    Uint32(n.ip)
  }

  ghost function Size(n: Network): nat
    requires WellFormed(n)
    ensures Size(n) >= 1
  {
    Pow2(32 - n.ones)
  }

  /** No bit of the address is outside of the mask. */
  ghost predicate Aligned(n: Network)
    requires WellFormed(n)
  {
    Base(n) % Size(n) == 0
  }

  /** An address belongs to the network: it has the same leading bits. */
  ghost predicate Contains(n: Network, address: nat)
    requires WellFormed(n)
  {
    address < WORD && address / Size(n) == Base(n) / Size(n)
  }

  /** Every address of the network belongs to exactly one of the parts, and no other
      address does. */
  ghost predicate Partition(parts: seq<Network>, n: Network)
    requires WellFormed(n) && forall i :: 0 <= i < |parts| ==> WellFormed(parts[i])
  {
    && (forall a: nat :: Contains(n, a) <==> exists i :: 0 <= i < |parts| && Contains(parts[i], a))
    && (forall i, j, a: nat :: 0 <= i < j < |parts| ==> !(Contains(parts[i], a) && Contains(parts[j], a)))
  }

  datatype Outcome = Ok(networks: seq<Network>) | Err | Panic

  /** Adds i times the size of a part to an address. */
  function Address(base: nat, i: nat, size: nat): (r: nat)
    ensures r < WORD
  {
    (base + i * size % WORD) % WORD
  }

  /** `subdivide`. */
  method Subdivide(network: Network, addressSize: nat, size: int) returns (r: Outcome)
    requires WellFormed(network) && size <= MAX_INT
    ensures r.Err? <==> addressSize != 32 || size < network.ones
    ensures r.Panic? <==> addressSize == 32 && size >= network.ones && (size > 32 || size == 0)
    ensures r.Ok? && network.ones > 0 ==>
      |r.networks| == Pow2(size - network.ones) && Consecutive(network, r.networks, size)
    ensures r.Ok? && network.ones == 0 ==> r.networks == []
  {
    if addressSize != 32 {
      return Err;
    }
    if size < network.ones || network.ones > addressSize {
      return Err;
    }
    var original := Shifted(Minus(addressSize, network.ones));
    var subdivided := Shifted(Minus(addressSize, size));
    if subdivided == 0 {
      return Panic;
    }
    assert 0 < size <= 32;
    CountParts(network.ones, size);
    var networks := [];
    for i := 0 to original / subdivided
      invariant |networks| == i && Consecutive(network, networks, size)
    {
      var ip := Bytes(Address(Uint32(network.ip), i, subdivided));
      BytesRoundTrip(Address(Uint32(network.ip), i, subdivided));
      networks := networks + [Network(ip, size)];
    }
    r := Ok(networks);
  }

  /** The i-th part begins i times their size behind the network's address, up to
      wrap-around. */
  ghost predicate Consecutive(n: Network, parts: seq<Network>, size: int)
    requires WellFormed(n)
  {
    forall i :: 0 <= i < |parts| ==>
      && 0 <= size <= 32 && parts[i].ones == size && |parts[i].ip| == 4
      && Uint32(parts[i].ip) == Address(Base(n), i, Pow2(32 - size))
  }

  /******* Powers of two *******/

  lemma {:induction false} PowAdd(a: nat, b: nat)
    ensures Pow2(a + b) == Pow2(a) * Pow2(b)
  {
    if a > 0 {
      PowAdd(a - 1, b);
    }
  }

  lemma Pow32()
    ensures Pow2(32) == WORD
  {
    assert Pow2(8) == 256;
    PowAdd(8, 8);
    PowAdd(16, 16);
  }

  lemma CountParts(p: nat, q: nat)
    requires p <= q <= 32 && q > 0
    ensures Shifted(Minus(32, q)) == Pow2(32 - q)
    ensures Shifted(Minus(32, p)) / Shifted(Minus(32, q)) == if p == 0 then 0 else Pow2(q - p)
  {
    var s := Pow2(32 - q);
    assert Minus(32, q) == 32 - q && Minus(32, p) == 32 - p;
    if p > 0 {
      PowAdd(q - p, 32 - q);
      MulDiv(Pow2(q - p), s);
    } else {
      DivIs(0, s, 0);
    }
  }

  /** A multiple of a divisor that is less than the whole leaves room for one more. */
  lemma Fits(b: nat, s: nat, t: nat, w: nat)
    requires s > 0 && b % s == 0 && b < w && w == t * s
    ensures b == b / s * s && b + s <= w
  {
    var q := b / s;
    assert b == q * s + b % s;
    if q >= t {
      MulAtMost(t, q, s);
    } else {
      MulAtMost(q + 1, t, s);
    }
  }

  lemma PartFits(b: nat, s: nat, k: nat, i: nat)
    requires s > 0 && k * s > 0 && b % (k * s) == 0 && i < k
    ensures (b + i * s) % s == 0 && i * s + s <= k * s
  {
    var q := b / (k * s);
    assert b == q * (k * s) + b % (k * s);
    Reassociate(q, k, s, i);
    MulDiv(q * k + i, s);
    MulAtMost(i + 1, k, s);
  }

  lemma Reassociate(q: nat, k: nat, s: nat, i: nat)
    ensures q * (k * s) + i * s == (q * k + i) * s
  {
  }

  /******* Ranges of addresses *******/

  /** The addresses of an aligned network are those from its own on. */
  lemma Range(n: Network, a: nat)
    requires WellFormed(n) && Aligned(n)
    ensures Contains(n, a) <==> Base(n) <= a < Base(n) + Size(n)
    ensures Base(n) + Size(n) <= WORD
  {
    WordOf(n);
    Fits(Base(n), Size(n), Pow2(n.ones), WORD);
    DivIs(a, Size(n), Base(n) / Size(n));
  }

  /** All addresses, as so many networks of the size. */
  lemma WordOf(n: Network)
    requires WellFormed(n)
    ensures WORD == Pow2(n.ones) * Size(n) && Base(n) < WORD
  {
    Pow32();
    PowAdd(n.ones, 32 - n.ones);
    InWord(n.ip);
  }

  lemma InWord(b: seq<byte>)
    requires |b| == 4
    ensures Uint32(b) < WORD
  {
  }

  /******* The partition *******/

  /** Where the i-th part begins, without overflow. */
  lemma PartBegins(n: Network, parts: seq<Network>, size: nat, i: nat)
    requires WellFormed(n) && Aligned(n) && n.ones <= size <= 32
    requires |parts| == Pow2(size - n.ones) && Consecutive(n, parts, size) && i < |parts|
    ensures WellFormed(parts[i]) && Size(parts[i]) == Pow2(32 - size) && Aligned(parts[i])
    ensures Base(parts[i]) == Base(n) + i * Pow2(32 - size)
    ensures Base(parts[i]) + Size(parts[i]) <= Base(n) + Size(n)
  {
    PowAdd(size - n.ones, 32 - size);
    PartFits(Base(n), Pow2(32 - size), |parts|, i);
    Range(n, 0);
    NoOverflow(Base(n), i, Pow2(32 - size), |parts|);
  }

  lemma NoOverflow(b: nat, i: nat, s: nat, k: nat)
    requires i * s + s <= k * s && b + k * s <= WORD && s > 0
    ensures Address(b, i, s) == b + i * s
  {
    var x := i * s;
    assert 0 <= x < WORD;
  }

  /** The parts of an aligned network are aligned, and they partition it. */
  lemma Partitions(n: Network, parts: seq<Network>, size: nat)
    requires WellFormed(n) && Aligned(n) && n.ones <= size <= 32
    requires |parts| == Pow2(size - n.ones) && Consecutive(n, parts, size)
    ensures forall i :: 0 <= i < |parts| ==> WellFormed(parts[i]) && Aligned(parts[i])
    ensures Partition(parts, n)
  {
    forall i | 0 <= i < |parts| ensures WellFormed(parts[i]) && Aligned(parts[i]) {
      PartBegins(n, parts, size, i);
    }
    forall a: nat ensures Contains(n, a) <==> exists i :: 0 <= i < |parts| && Contains(parts[i], a) {
      Covered(n, parts, size, a);
    }
    forall i, j, a: nat | 0 <= i < j < |parts| ensures !(Contains(parts[i], a) && Contains(parts[j], a)) {
      Disjoint(n, parts, size, i, j, a);
    }
  }

  lemma Disjoint(n: Network, parts: seq<Network>, size: nat, i: nat, j: nat, a: nat)
    requires WellFormed(n) && Aligned(n) && n.ones <= size <= 32
    requires |parts| == Pow2(size - n.ones) && Consecutive(n, parts, size) && i < j < |parts|
    ensures WellFormed(parts[i]) && WellFormed(parts[j]) && !(Contains(parts[i], a) && Contains(parts[j], a))
  {
    PartBegins(n, parts, size, i);
    PartBegins(n, parts, size, j);
    Range(parts[i], a);
    Range(parts[j], a);
    MulAtMost(i + 1, j, Pow2(32 - size));
    assert (i + 1) * Pow2(32 - size) == i * Pow2(32 - size) + Pow2(32 - size);
  }

  lemma Quotient(x: nat, s: nat, k: nat) returns (i: nat)
    requires s > 0 && x < k * s
    ensures i < k && i * s <= x < i * s + s
  {
    i := x / s;
    DivIs(x, s, i);
    if i >= k {
      MulAtMost(k, i, s);
    }
  }

  lemma Covered(n: Network, parts: seq<Network>, size: nat, a: nat)
    requires WellFormed(n) && Aligned(n) && n.ones <= size <= 32
    requires |parts| == Pow2(size - n.ones) && Consecutive(n, parts, size)
    requires forall i :: 0 <= i < |parts| ==> WellFormed(parts[i])
    ensures Contains(n, a) <==> exists i :: 0 <= i < |parts| && Contains(parts[i], a)
  {
    if Contains(n, a) {
      var i := PartOf(n, parts, size, a);
    }
    if i :| 0 <= i < |parts| && Contains(parts[i], a) {
      InPart(n, parts, size, a, i);
    }
  }

  lemma InPart(n: Network, parts: seq<Network>, size: nat, a: nat, i: nat)
    requires WellFormed(n) && Aligned(n) && n.ones <= size <= 32
    requires |parts| == Pow2(size - n.ones) && Consecutive(n, parts, size)
    requires i < |parts| && WellFormed(parts[i]) && Contains(parts[i], a)
    ensures Contains(n, a)
  {
    PartBegins(n, parts, size, i);
    Range(parts[i], a);
    Range(n, a);
  }

  lemma PartOf(n: Network, parts: seq<Network>, size: nat, a: nat) returns (i: nat)
    requires WellFormed(n) && Aligned(n) && n.ones <= size <= 32 && Contains(n, a)
    requires |parts| == Pow2(size - n.ones) && Consecutive(n, parts, size)
    ensures i < |parts| && WellFormed(parts[i]) && Contains(parts[i], a)
  {
    Range(n, a);
    PowAdd(size - n.ones, 32 - size);
    i := Quotient(a - Base(n), Pow2(32 - size), |parts|);
    PartBegins(n, parts, size, i);
    Range(parts[i], a);
  }

  /** The i-th of the parts of a size. */
  ghost predicate IsPart(n: Network, part: Network, size: nat, i: nat)
    requires WellFormed(n) && size <= 32
  {
    WellFormed(part) && Aligned(part) && part.ones == size && Base(part) == Base(n) + i * Pow2(32 - size)
  }

  /** Dividing a network gives a partition of it exactly for prefixes of at least one bit
      and parts that are neither larger than the network nor smaller than an address. */
  method SubdivideAligned(network: Network, size: int) returns (r: Outcome)
    requires WellFormed(network) && Aligned(network) && size <= MAX_INT
    ensures 1 <= network.ones <= size <= 32 <==>
      && r.Ok? && (forall i :: 0 <= i < |r.networks| ==> WellFormed(r.networks[i])) && Partition(r.networks, network)
    ensures 1 <= network.ones <= size <= 32 ==>
      && r.Ok? && |r.networks| == Pow2(size - network.ones)
      && forall i :: 0 <= i < |r.networks| ==> IsPart(network, r.networks[i], size, i)
  {
    r := Subdivide(network, 32, size);
    if r.Ok? {
      if network.ones > 0 {
        Partitions(network, r.networks, size);
        forall i | 0 <= i < |r.networks| ensures IsPart(network, r.networks[i], size, i) {
          PartBegins(network, r.networks, size, i);
        }
      } else {
        Range(network, Base(network));
      }
    }
  }

  /******* NAT subnets *******/

  /** The part of a network between its first and its second quarter point. */
  ghost predicate InSecondQuarter(n: Network, part: Network)
    requires WellFormed(n) && WellFormed(part) && n.ones <= 30
  {
    var quarter := Pow2(30 - n.ones);
    Base(n) + quarter <= Base(part) && Base(part) + Size(part) <= Base(n) + 2 * quarter
  }

  ghost predicate DisjointNetworks(a: Network, b: Network)
    requires WellFormed(a) && WellFormed(b)
  {
    forall x: nat :: !(Contains(a, x) && Contains(b, x))
  }

  /** `stupsNATSubnets` for an IPv4 network: three disjoint /28 networks in the second
      quarter, whenever the prefix has 1 to 24 bits. */
  method StupsNATSubnets(vpc: Network) returns (r: Outcome)
    requires WellFormed(vpc) && Aligned(vpc)
    ensures r.Ok? <==> 1 <= vpc.ones <= 24
    ensures !r.Panic?
    ensures r.Ok? ==>
      && |r.networks| == 3
      && (forall i :: 0 <= i < 3 ==>
           WellFormed(r.networks[i]) && r.networks[i].ones == 28 && InSecondQuarter(vpc, r.networks[i]))
      && (forall i, j :: 0 <= i < j < 3 ==> DisjointNetworks(r.networks[i], r.networks[j]))
  {
    if vpc.ones == 0 || vpc.ones > 24 {
      return Err;
    }
    var quarters := SubdivideAligned(vpc, vpc.ones + 2);
    assert Pow2(2) == 4 && |quarters.networks| == 4;
    var quarter := quarters.networks[1];
    assert IsPart(vpc, quarter, vpc.ones + 2, 1);
    var parts := SubdivideAligned(quarter, 28);
    AtLeastFour(28 - quarter.ones);
    var networks := [];
    for i := 0 to 3
      invariant networks == parts.networks[..i]
    {
      networks := networks + [parts.networks[i]];
    }
    forall i | 0 <= i < 3 ensures InSecondQuarter(vpc, networks[i]) {
      InQuarter(vpc, quarter, networks[i], i);
    }
    r := Ok(networks);
  }

  lemma {:induction false} AtLeastFour(n: nat)
    requires n >= 2
    ensures Pow2(n) >= 4
  {
    if n > 2 {
      AtLeastFour(n - 1);
    }
  }

  lemma InQuarter(vpc: Network, quarter: Network, part: Network, i: nat)
    requires WellFormed(vpc) && 1 <= vpc.ones <= 24 && IsPart(vpc, quarter, vpc.ones + 2, 1)
    requires IsPart(quarter, part, 28, i) && i < 3
    ensures InSecondQuarter(vpc, part)
  {
    PowAdd(28 - quarter.ones, 4);
    AtLeastFour(28 - quarter.ones);
    MulAtMost(4, Pow2(28 - quarter.ones), Pow2(4));
  }
}
