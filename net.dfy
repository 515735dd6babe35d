/**
 * IPv4 addresses and CIDR blocks, as far as the master's checks use them:
 * an address is a 32-bit natural, a block is a base address with a prefix length,
 * and containment is a match of the first `prefixLen` bits.
 */
module Net {

  /** An IPv4 address read as a 32-bit unsigned number (first octet most significant). */
  type Addr = a: nat | a < 0x1_0000_0000

  /** The length of a CIDR prefix for IPv4. */
  type PrefixLen = n: nat | n <= 32

  /** A CIDR block such as 10.128.0.0/14 (`net.IPNet` restricted to IPv4). */
  datatype Cidr = Cidr(base: Addr, prefixLen: PrefixLen)

  function Pow2(k: nat): (r: nat)
    ensures r >= 1
  {
    if k == 0 then 1 else 2 * Pow2(k - 1)
  }

  /** The number of addresses in the block. */
  function BlockSize(c: Cidr): (r: nat)
    ensures r >= 1
  {
    Pow2(32 - c.prefixLen)
  }

  /** The first address of the block: the base with its host bits cleared. */
  function NetworkStart(c: Cidr): int
  {
    (c.base / BlockSize(c)) * BlockSize(c)
  }

  /** `IPNet.Contains`: the address agrees with the block's base on the first `prefixLen` bits. */
  predicate Contains(c: Cidr, a: Addr)
  {
    a / BlockSize(c) == c.base / BlockSize(c)
  }

  lemma DivisionBounds(a: nat, p: nat, q: nat)
    requires p >= 1
    ensures a / p == q <==> q * p <= a < q * p + p
  {
    var k := a / p;
    assert k * p <= a < k * p + p;
    if k < q {
      assert (k + 1) * p <= q * p;
    } else if k > q {
      assert (q + 1) * p <= k * p;
    }
  }

  lemma SameBlock(a: nat, b: nat, p: nat)
    requires p >= 1
    ensures a / p == b / p <==> (b / p) * p <= a < (b / p) * p + p
  {
    DivisionBounds(a, p, b / p);
  }

  /** Containment as a prefix match agrees with containment in the address range of the block. */
  lemma ContainsIffInBlock(c: Cidr, a: Addr)
    ensures Contains(c, a) <==> NetworkStart(c) <= a < NetworkStart(c) + BlockSize(c)
  {
    SameBlock(a, c.base, BlockSize(c));
  }

  lemma {:induction false} Pow2Of32()
    ensures Pow2(16) == 0x1_0000 && Pow2(18) == 0x4_0000 && Pow2(32) == 0x1_0000_0000
  {
    assert Pow2(8) == 256;
    assert Pow2(16) == 65536;
    assert Pow2(24) == 16777216;
  }

  function DecimalDigit(d: nat): char
    requires d < 10
  {
    "0123456789"[d]
  }

  /** The decimal rendering of a natural number, without leading zeros. */
  function Decimal(n: nat): (s: string)
    ensures |s| >= 1
  {
    if n < 10 then [DecimalDigit(n)] else Decimal(n / 10) + [DecimalDigit(n % 10)]
  }

  /** The dotted-quad rendering of an address, as `net.IP.String` writes an IPv4 address. */
  function DottedQuad(a: Addr): string
  {
    Decimal(a / 0x100_0000) + "." + Decimal(a / 0x1_0000 % 0x100) + "."
      + Decimal(a / 0x100 % 0x100) + "." + Decimal(a % 0x100)
  }

  /** `IPNet.String` for an IPv4 block with a canonical mask: "a.b.c.d/len". */
  function Render(c: Cidr): string
  {
    DottedQuad(c.base) + "/" + Decimal(c.prefixLen)
  }
}
