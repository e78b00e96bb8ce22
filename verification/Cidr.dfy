/**
 IPv4 ranges in prefix notation, section 3.1 of RFC 4632: masking with 32-bit shifts and the
 enumeration of the hosts of a range.
 */
module Cidr {
  import opened Options

  const U32_MAX: nat := 0xFFFF_FFFF
  const ADDRESSES: nat := 0x1_0000_0000
  const MAX_CIDR_HOSTS: nat := 1_048_576

  datatype RangeError = PrefixTooLong | TooManyHosts(hosts: nat)

  datatype Range = Range(network: nat, hostCount: nat)

  function Pow2(k: nat): (r: nat)
    ensures r >= 1
  {
    if k == 0 then 1 else 2 * Pow2(k - 1)
  }

  /** Bitwise and. */
  function BitAnd(x: nat, y: nat): nat {
    if x == 0 then 0
    else (if x % 2 == 1 && y % 2 == 1 then 1 else 0) + 2 * BitAnd(x / 2, y / 2)
  }

  /** `<<` on a 32-bit word: bits shifted past the top are dropped. */
  function ShiftLeft32(x: nat, k: nat): nat {
    (x * Pow2(k)) % ADDRESSES
  }

  function ParseRange(base: nat, prefix: nat): Result<Range, RangeError>
    requires base < ADDRESSES
  {
    if prefix > 32 then Err(PrefixTooLong)
    else
      var hostCount := Pow2(32 - prefix);
      if hostCount > MAX_CIDR_HOSTS then Err(TooManyHosts(hostCount))
      else
        var mask := if prefix == 0 then 0 else ShiftLeft32(U32_MAX, 32 - prefix);
        Ok(Range(BitAnd(base, mask), hostCount))
  }

  function Addresses(range: Range): seq<nat> {
    seq(range.hostCount, i requires 0 <= i < range.hostCount => range.network + i)
  }

  lemma {:induction false} Pow2Monotone(j: nat, k: nat)
    requires j <= k
    ensures Pow2(j) <= Pow2(k)
    ensures Pow2(k) == Pow2(k - j) * Pow2(j)
    decreases k
  {
    if j < k {
      Pow2Monotone(j, k - 1);
      assert 2 * (Pow2(k - 1 - j) * Pow2(j)) == (2 * Pow2(k - 1 - j)) * Pow2(j);
    }
  }

  lemma Pow2Of32()
    ensures Pow2(32) == ADDRESSES
  {
    assert Pow2(8) == 256;
    Pow2Monotone(8, 16);
    assert Pow2(16) == 65536;
    Pow2Monotone(16, 32);
  }

  lemma MaskValue(k: nat)
    requires k < 32
    ensures ShiftLeft32(U32_MAX, k) == Pow2(32) - Pow2(k)
  {
    Pow2Of32();
    Pow2Monotone(k, 32);
    Pow2Monotone(k + 1, 32);
    var p := Pow2(k);
    assert U32_MAX * p == (p - 1) * ADDRESSES + (ADDRESSES - p);
    assert 0 <= ADDRESSES - p < ADDRESSES;
    DivisionUnique(U32_MAX * p, ADDRESSES, p - 1, ADDRESSES - p);
  }

  lemma MultipleIsFar(a: int, d: nat)
    requires d > 0
    ensures a >= 1 ==> a * d >= d
    ensures a <= -1 ==> a * d <= 0 - d
  {
  }

  lemma DivisionUnique(x: nat, d: nat, q: nat, r: nat)
    requires d > 0 && r < d && x == q * d + r
    ensures x / d == q && x % d == r
  {
    var a := x / d - q;
    assert a * d == (x / d) * d - q * d == r - x % d;
    MultipleIsFar(a, d);
  }

  lemma HalveModulo(x: nat, p: nat)
    requires p > 0
    ensures x % (2 * p) == x % 2 + 2 * ((x / 2) % p)
  {
    var h := x / 2;
    assert x == 2 * h + x % 2;
    assert h == (h / p) * p + h % p;
    assert x == (h / p) * (2 * p) + (x % 2 + 2 * (h % p));
    DivisionUnique(x, 2 * p, h / p, x % 2 + 2 * (h % p));
  }

  lemma AndEven(x: nat, z: nat)
    ensures BitAnd(x, 2 * z) == 2 * BitAnd(x / 2, z)
  {
    assert (2 * z) % 2 == 0 && (2 * z) / 2 == z;
  }

  lemma AndOdd(x: nat, z: nat)
    ensures BitAnd(x, 2 * z + 1) == x % 2 + 2 * BitAnd(x / 2, z)
  {
    assert (2 * z + 1) % 2 == 1 && (2 * z + 1) / 2 == z;
  }

  lemma {:induction false} AllOnesKeepsWord(x: nat, n: nat)
    requires x < Pow2(n)
    ensures BitAnd(x, Pow2(n) - 1) == x
  {
    if n > 0 {
      AllOnesKeepsWord(x / 2, n - 1);
      AndOdd(x, Pow2(n - 1) - 1);
    }
  }

  /** Masking with `n - k` leading ones clears exactly the low `k` bits. */
  lemma {:induction false} MaskClearsLowBits(x: nat, n: nat, k: nat)
    requires k <= n && x < Pow2(n)
    ensures Pow2(n) >= Pow2(k) && BitAnd(x, Pow2(n) - Pow2(k)) + x % Pow2(k) == x
    decreases n
  {
    hide BitAnd;
    Pow2Monotone(k, n);
    if k == 0 {
      AllOnesKeepsWord(x, n);
    } else {
      MaskClearsLowBits(x / 2, n - 1, k - 1);
      AndEven(x, Pow2(n - 1) - Pow2(k - 1));
      HalveModulo(x, Pow2(k - 1));
    }
  }

  lemma FloorToMultiple(x: nat, h: nat, m: nat)
    requires h > 0 && m + x % h == x
    ensures m == (x / h) * h
  {
    assert x == (x / h) * h + x % h;
  }

  lemma BlockEndsInside(x: nat, h: nat, blocks: nat)
    requires h > 0 && x < blocks * h
    ensures (x / h) * h + h <= blocks * h
  {
    var spare := blocks - x / h;
    assert x == (x / h) * h + x % h;
    assert spare * h == blocks * h - (x / h) * h;
    MultipleIsFar(spare - 1, h);
    MultipleIsFar(spare, h);
    assert (spare - 1) * h == spare * h - h;
  }

  lemma NetworkOf(base: nat, prefix: nat)
    requires base < ADDRESSES && 0 < prefix <= 32 && ParseRange(base, prefix).Ok?
    ensures
      var range := ParseRange(base, prefix).value;
      && range.hostCount == Pow2(32 - prefix)
      && range.network == (base / range.hostCount) * range.hostCount
      && range.network + range.hostCount <= ADDRESSES
  {
    hide Pow2, BitAnd, ShiftLeft32;
    var k := 32 - prefix;
    Pow2Of32();
    MaskValue(k);
    MaskClearsLowBits(base, 32, k);
    FloorToMultiple(base, Pow2(k), BitAnd(base, Pow2(32) - Pow2(k)));
    Pow2Monotone(k, 32);
    BlockEndsInside(base, Pow2(k), Pow2(prefix));
  }

  lemma BlockMembers(range: Range, q: nat)
    requires range.hostCount > 0 && range.network == q * range.hostCount && range.network + range.hostCount <= ADDRESSES
    ensures range.network % range.hostCount == 0
    ensures forall a: nat :: a in Addresses(range) <==> a < ADDRESSES && a / range.hostCount == q
  {
    var h, hosts := range.hostCount, Addresses(range);
    DivisionUnique(range.network, h, q, 0);
    forall a: nat
      ensures a in hosts <==> a < ADDRESSES && a / h == q
    {
      if a in hosts {
        var i :| 0 <= i < |hosts| && hosts[i] == a;
        DivisionUnique(a, h, q, i);
      }
      if a < ADDRESSES && a / h == q {
        assert a == q * h + a % h;
        assert hosts[a % h] == a;
      }
    }
  }

  /**
   The enumerated hosts are exactly the 32-bit addresses that share the leading `prefix` bits of the
   base, each once and in ascending order; the network address is a multiple of the host count, so
   adding an offset never leaves 32 bits.
   */
  lemma EnumerationIsThePrefixBlock(base: nat, prefix: nat)
    requires base < ADDRESSES && ParseRange(base, prefix).Ok?
    ensures
      var range := ParseRange(base, prefix).value;
      var hosts := Addresses(range);
      && range.hostCount == Pow2(32 - prefix) && range.network % range.hostCount == 0
      && (forall i, j :: 0 <= i < j < |hosts| ==> hosts[i] < hosts[j])
      && (forall i :: 0 <= i < |hosts| ==> hosts[i] < ADDRESSES)
      && (forall a: nat :: a in hosts <==> a < ADDRESSES && a / range.hostCount == base / range.hostCount)
  {
    AcceptedPrefixes(base, prefix);
    NetworkOf(base, prefix);
    var range := ParseRange(base, prefix).value;
    hide ParseRange, Pow2;
    BlockMembers(range, base / range.hostCount);
  }

  /** A prefix is refused exactly when it is longer than 32 bits or leaves more than 20 host bits. */
  lemma AcceptedPrefixes(base: nat, prefix: nat)
    requires base < ADDRESSES
    ensures ParseRange(base, prefix).Ok? <==> 12 <= prefix <= 32
  {
    assert Pow2(10) == 1024;
    Pow2Monotone(10, 20);
    assert Pow2(20) == MAX_CIDR_HOSTS;
    if prefix <= 32 {
      if prefix < 12 {
        Pow2Monotone(21, 32 - prefix);
      } else {
        Pow2Monotone(32 - prefix, 20);
      }
    }
  }
}
