// Result types and machine-width bounds shared by every component.
module Basics {
  datatype Option<+T> = None | Some(value: T)

  datatype Result<+T, +E> = Ok(value: T) | Err(error: E)

  const TWO_32 := 0x1_0000_0000
  const TWO_63 := 0x8000_0000_0000_0000
  const TWO_64 := 0x1_0000_0000_0000_0000
  const TWO_48 := 0x1_0000_0000_0000

  // Go's and Solidity's fixed-width unsigned integers.
  type Uint32 = n: nat | n < TWO_32
  type Uint48 = n: nat | n < TWO_48
  type Uint64 = n: nat | n < TWO_64

  type Byte = n: nat | n < 256
  type Bytes = seq<Byte>

  // ---------- division ----------

  lemma MultipleIsZeroOrLarge(k: int, p: nat)
    requires p >= 1
    ensures k == 0 || k * p >= p || k * p <= -(p as int)
  {
    if k >= 1 {
      assert k * p == (k - 1) * p + p;
    } else if k <= -1 {
      assert k * p == (k + 1) * p - p;
    }
  }

  lemma MulDiv(v: int, p: nat)
    requires p >= 1
    ensures (v * p) / p == v && (v * p) % p == 0
  {
    var q, r := (v * p) / p, (v * p) % p;
    assert v * p == q * p + r;
    assert (v - q) * p == r;
    MultipleIsZeroOrLarge(v - q, p);
  }

  lemma SmallRemainder(n: nat, p: nat, q: nat, r: nat)
    requires n == p * q + r && r < p
    ensures n / p == q && n % p == r
  {
    MulDiv(q, p);
    assert p * (n / p) + n % p == n;
    assert p * (n / p - q) == r - n % p;
    MultipleIsZeroOrLarge(n / p - q, p);
  }

  lemma QuotientIsNat(n: nat, p: nat)
    requires p >= 1
    ensures n / p >= 0
  {
  }
}
