// Bytes, addresses, and the fixed-width encodings the guard reads.
module Bytes {
  import opened Wrappers

  type byte = b: int | 0 <= b < 256
  type Bytes = seq<byte>

  const U64_LIMIT: nat := 0x1_0000_0000_0000_0000
  type u64 = n: nat | n < U64_LIMIT

  const ADDRESS_LEN := 20
  const ACCOUNT_ID_LEN := 32
  const PAD_LEN := ACCOUNT_ID_LEN - ADDRESS_LEN

  function Zeros(n: nat): Bytes {
    seq(n, _ => 0)
  }

  type Address = s: Bytes | |s| == ADDRESS_LEN witness Zeros(ADDRESS_LEN)
  type AccountID = s: Bytes | |s| == ACCOUNT_ID_LEN witness Zeros(ACCOUNT_ID_LEN)

  predicate IsZero(a: Address) {
    a == Zeros(ADDRESS_LEN)
  }

  // Widening pads with twelve zero bytes; narrowing refuses any other padding.
  function AccountID32(a: Address): AccountID {
    Zeros(PAD_LEN) + a
  }

  function AddressFromAccountID(id: AccountID): Option<Address> {
    if id[..PAD_LEN] == Zeros(PAD_LEN) then Some(id[PAD_LEN..]) else None
  }

  // The identifiers that narrow are exactly the widened addresses.
  lemma NarrowIffWidened(id: AccountID, a: Address)
    ensures AddressFromAccountID(id) == Some(a) <==> id == AccountID32(a)
  {
    if AddressFromAccountID(id) == Some(a) {
      assert id == id[..PAD_LEN] + id[PAD_LEN..];
    }
  }

  // ---- big-endian ----

  function Pow256(w: nat): (p: nat)
    ensures p >= 1
  {
    if w == 0 then 1 else 256 * Pow256(w - 1)
  }

  function BigEndian(n: nat, width: nat): (s: Bytes)
    ensures |s| == width
  {
    if width == 0 then [] else BigEndian(n / 256, width - 1) + [n % 256]
  }

  function FromBigEndian(s: Bytes): nat {
    if s == [] then 0 else FromBigEndian(s[..|s| - 1]) * 256 + s[|s| - 1]
  }

  lemma {:induction false} DecodeBigEndian(n: nat, width: nat)
    requires n < Pow256(width)
    ensures FromBigEndian(BigEndian(n, width)) == n
  {
    if width > 0 {
      DecodeBigEndian(n / 256, width - 1);
      var s := BigEndian(n, width);
      assert s[..|s| - 1] == BigEndian(n / 256, width - 1);
    }
  }

  lemma {:induction false} EncodeBigEndian(s: Bytes)
    ensures FromBigEndian(s) < Pow256(|s|)
    ensures BigEndian(FromBigEndian(s), |s|) == s
  {
    if s != [] {
      EncodeBigEndian(s[..|s| - 1]);
    }
  }

  lemma {:induction false} Pow256IsFixed()
    ensures Pow256(8) == U64_LIMIT
    ensures Pow256(32) == 0x1_0000000000000000_0000000000000000_0000000000000000_0000000000000000
  {
    assert Pow256(4) == 0x1_0000_0000;
    assert Pow256(8) == U64_LIMIT;
    assert Pow256(12) == 0x1_0000_0000 * U64_LIMIT;
    assert Pow256(16) == U64_LIMIT * U64_LIMIT;
    assert Pow256(20) == U64_LIMIT * U64_LIMIT * 0x1_0000_0000;
    assert Pow256(24) == U64_LIMIT * U64_LIMIT * U64_LIMIT;
    assert Pow256(28) == U64_LIMIT * U64_LIMIT * U64_LIMIT * 0x1_0000_0000;
  }

  lemma {:induction false} MultipleIsBig(d: nat, x: nat)
    ensures x > 0 ==> d * x >= d
  {
    if x > 1 {
      MultipleIsBig(d, x - 1);
      assert d * x == d * (x - 1) + d;
    }
  }

  lemma QuotientIs(n: nat, d: nat, q: nat, r: nat)
    requires n == d * q + r && r < d
    ensures n / d == q
  {
    var k := n / d;
    assert n == d * k + n % d;
    assert d * (q - k) == d * q - d * k && d * (k - q) == d * k - d * q;
    if q > k {
      MultipleIsBig(d, q - k);
    } else {
      MultipleIsBig(d, k - q);
    }
  }

  lemma DivTwice(n: nat, d: nat)
    requires d > 0
    ensures n / (256 * d) == (n / 256) / d
  {
    var q, r := n / 256, n % 256;
    var k, m := q / d, q % d;
    assert n == (256 * d) * k + (256 * m + r) by {
      assert q == d * k + m;
      assert 256 * (d * k) == (256 * d) * k;
    }
    QuotientIs(n, 256 * d, k, 256 * m + r);
  }

  // The byte order: the i-th byte from the end is worth 256^i.
  lemma {:induction false} BigEndianAt(n: nat, width: nat, i: nat)
    requires i < width
    ensures BigEndian(n, width)[width - 1 - i] == (n / Pow256(i)) % 256
  {
    if i > 0 {
      BigEndianAt(n / 256, width - 1, i - 1);
      DivTwice(n, Pow256(i - 1));
    }
  }
}
