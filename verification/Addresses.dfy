/** IPv4 and IPv6 addresses, and networks in CIDR notation (section 3.1 of RFC 4632). */
module Addresses {
  datatype Version = V4 | V6

  function Width(v: Version): nat { if v == V4 then 32 else 128 }

  datatype Address = Address(version: Version, value: nat)

  /** An entry as written: bits beyond the prefix may be set (strict=False). */
  datatype Network = Network(version: Version, value: nat, length: nat)

  predicate ValidAddress(a: Address) { a.value < Pow2(Width(a.version)) }

  predicate ValidNetwork(n: Network) { n.length <= Width(n.version) && n.value < Pow2(Width(n.version)) }

  function Pow2(k: nat): (p: nat)
    ensures p > 0
  {
    if k == 0 then 1 else 2 * Pow2(k - 1)
  }

  /** The value with its `k` lowest bits cleared: the conjunction with the netmask. */
  function Masked(value: nat, k: nat): (m: nat)
    ensures m <= value < m + Pow2(k)
  {
    if k == 0 then value else 2 * Masked(value / 2, k - 1)
  }

  /** Bit `i`, counting from the lowest. */
  function Bit(value: nat, i: nat): nat { if i == 0 then value % 2 else Bit(value / 2, i - 1) }

  function HostBits(n: Network): nat
    requires ValidNetwork(n)
  {
    Width(n.version) - n.length
  }

  /** `address in network`: the masked values agree. */
  predicate Contains(n: Network, a: Address)
    requires ValidNetwork(n)
  {
    a.version == n.version && Masked(a.value, HostBits(n)) == Masked(n.value, HostBits(n))
  }

  /** The bits from position k up to position w are the same. */
  ghost predicate AgreeOn(x: nat, y: nat, k: nat, w: nat) { forall i | k <= i < w :: Bit(x, i) == Bit(y, i) }

  lemma AgreeOnHalves(x: nat, y: nat, k: nat, w: nat)
    requires k > 0 && w > 0
    ensures AgreeOn(x, y, k, w) <==> AgreeOn(x / 2, y / 2, k - 1, w - 1)
  {
    if AgreeOn(x, y, k, w) {
      forall i | k - 1 <= i < w - 1 ensures Bit(x / 2, i) == Bit(y / 2, i) {
        assert Bit(x, i + 1) == Bit(y, i + 1);
      }
    }
    if AgreeOn(x / 2, y / 2, k - 1, w - 1) {
      forall i | k <= i < w ensures Bit(x, i) == Bit(y, i) {
        assert Bit(x / 2, i - 1) == Bit(y / 2, i - 1);
      }
    }
  }

  lemma {:induction false} SameMaskedIffSameHighBits(x: nat, y: nat, k: nat, w: nat)
    requires k <= w && x < Pow2(w) && y < Pow2(w)
    ensures Masked(x, k) == Masked(y, k) <==> AgreeOn(x, y, k, w)
    decreases w
  {
    if w > 0 {
      if k > 0 {
        SameMaskedIffSameHighBits(x / 2, y / 2, k - 1, w - 1);
        AgreeOnHalves(x, y, k, w);
      } else {
        SameMaskedIffSameHighBits(x / 2, y / 2, 0, w - 1);
        AgreeOnHalves(x, y, 1, w);
        assert AgreeOn(x, y, 0, w) <==> AgreeOn(x, y, 1, w) && Bit(x, 0) == Bit(y, 0);
      }
    }
  }

  lemma {:induction false} SameMaskedIffSameBlock(x: nat, y: nat, k: nat)
    ensures Masked(x, k) == Masked(y, k) <==> Masked(y, k) <= x < Masked(y, k) + Pow2(k)
  {
    if k > 0 {
      SameMaskedIffSameBlock(x / 2, y / 2, k - 1);
    }
  }

  /** An address is in a network exactly when both share the prefix, that is, when the address
      lies in the block of 2^(width - length) addresses that starts at the masked base. */
  lemma ContainsIffSharesPrefix(n: Network, a: Address)
    requires ValidNetwork(n) && ValidAddress(a)
    ensures Contains(n, a) <==>
      a.version == n.version && AgreeOn(a.value, n.value, HostBits(n), Width(n.version))
    ensures Contains(n, a) <==>
      && a.version == n.version
      && Masked(n.value, HostBits(n)) <= a.value < Masked(n.value, HostBits(n)) + Pow2(HostBits(n))
  {
    SameMaskedIffSameBlock(a.value, n.value, HostBits(n));
    if a.version == n.version {
      SameMaskedIffSameHighBits(a.value, n.value, HostBits(n), Width(n.version));
    }
  }
}
