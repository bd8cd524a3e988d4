// ERC-20 transfer(address,uint256) calldata: a builder that fills one buffer in
// place and a reader that refuses everything but the exact layout (Contract ABI
// Specification, "Function Selector" and "Argument Encoding").
module Transfer {
  import opened Wrappers
  import opened Bytes

  const SELECTOR: Bytes := [0xa9, 0x05, 0x9c, 0xbb]
  const SELECTOR_LEN := 4
  const WORD_LEN := 32
  const CALLDATA_LEN := SELECTOR_LEN + 2 * WORD_LEN
  const ADDR_WORD_OFF := SELECTOR_LEN
  const ADDR_OFF := ADDR_WORD_OFF + WORD_LEN - ADDRESS_LEN
  const AMOUNT_OFF := SELECTOR_LEN + WORD_LEN

  // A mutable big integer; nil is a null reference.
  class BigInt {
    var v: int

    constructor (v: int)
      ensures this.v == v
    {
      this.v := v;
    }
  }

  datatype CodecError = EncodeAmountRange | CalldataLength | NotTransfer | DirtyAddressWord

  // The reference layout.
  function TransferBytes(to: Address, amount: nat): (d: Bytes)
    ensures |d| == CALLDATA_LEN
  {
    SELECTOR + Zeros(WORD_LEN - ADDRESS_LEN) + to + BigEndian(amount, WORD_LEN)
  }

  predicate FitsWord(amount: int) {
    0 <= amount < Pow256(WORD_LEN)
  }

  datatype Decoded = Decoded(to: Address, amount: nat)

  function DecodeSpec(data: Bytes): Result<Decoded, CodecError> {
    if |data| != CALLDATA_LEN then Err(CalldataLength)
    else if data[..SELECTOR_LEN] != SELECTOR then Err(NotTransfer)
    else if data[ADDR_WORD_OFF..ADDR_OFF] != Zeros(WORD_LEN - ADDRESS_LEN) then Err(DirtyAddressWord)
    else Ok(Decoded(data[ADDR_OFF..AMOUNT_OFF], FromBigEndian(data[AMOUNT_OFF..])))
  }

  // Decoding inverts encoding on every 256-bit amount, and encoding inverts
  // decoding on every calldata the decoder accepts.
  lemma DecodeIffEncoded(data: Bytes, to: Address, amount: nat)
    ensures DecodeSpec(data) == Ok(Decoded(to, amount)) <==> FitsWord(amount) && data == TransferBytes(to, amount)
  {
    if FitsWord(amount) && data == TransferBytes(to, amount) {
      assert data[AMOUNT_OFF..] == BigEndian(amount, WORD_LEN);
      DecodeBigEndian(amount, WORD_LEN);
    }
    if DecodeSpec(data) == Ok(Decoded(to, amount)) {
      EncodeBigEndian(data[AMOUNT_OFF..]);
      assert data == data[..SELECTOR_LEN] + data[ADDR_WORD_OFF..ADDR_OFF]
                   + data[ADDR_OFF..AMOUNT_OFF] + data[AMOUNT_OFF..];
    }
  }

  // Where the amount's bytes are: the last byte of the calldata is worth 1.
  lemma AmountByteAt(to: Address, n: nat, i: nat)
    requires i < WORD_LEN
    ensures TransferBytes(to, n)[CALLDATA_LEN - 1 - i] == (n / Pow256(i)) % 256
  {
    BigEndianAt(n, WORD_LEN, i);
  }

  // Go's copy for a source that fits.
  method CopyInto(dst: array<byte>, off: nat, src: Bytes)
    requires off + |src| <= dst.Length
    modifies dst
    ensures dst[..] == old(dst[..off]) + src + old(dst[off + |src|..])
  {
    for i := 0 to |src|
      invariant dst[..off + i] == old(dst[..off]) + src[..i]
      invariant dst[off + i..] == old(dst[off + i..])
    {
      dst[off + i] := src[i];
    }
  }

  // big.Int.FillBytes: big-endian into the tail of the buffer, zero padded.
  method FillBytes(dst: array<byte>, off: nat, n: nat)
    requires off <= dst.Length && n < Pow256(dst.Length - off)
    modifies dst
    ensures dst[..] == old(dst[..off]) + BigEndian(n, dst.Length - off)
  {
    var i, rest := dst.Length, n;
    while i > off
      invariant off <= i <= dst.Length
      invariant dst[..i] == old(dst[..i])
      invariant BigEndian(rest, i - off) + dst[i..] == BigEndian(n, dst.Length - off)
    {
      i := i - 1;
      dst[i] := rest % 256;
      rest := rest / 256;
    }
    assert dst[..] == dst[..off] + dst[off..];
  }

  // Selector at 0, address at 16, amount at 36, into zeros.
  lemma AssembledCalldata(zeros: Bytes, one: Bytes, two: Bytes, to: Address, amount: nat)
    requires zeros == Zeros(CALLDATA_LEN) && FitsWord(amount)
    requires one == SELECTOR + zeros[SELECTOR_LEN..]
    requires two == one[..ADDR_OFF] + to + one[AMOUNT_OFF..]
    ensures two[..AMOUNT_OFF] + BigEndian(amount, WORD_LEN) == TransferBytes(to, amount)
  {
    assert one[..ADDR_OFF] == SELECTOR + Zeros(WORD_LEN - ADDRESS_LEN);
    assert two[..AMOUNT_OFF] == one[..ADDR_OFF] + to;
  }

  // The buffer before the amount goes in.
  method SelectorAndAddress(to: Address, ghost amount: nat) returns (data: array<byte>)
    requires FitsWord(amount)
    ensures fresh(data) && data.Length == CALLDATA_LEN
    ensures data[..AMOUNT_OFF] + BigEndian(amount, WORD_LEN) == TransferBytes(to, amount)
  {
    data := new byte[CALLDATA_LEN](_ => 0);
    ghost var zeros := data[..];
    CopyInto(data, 0, SELECTOR);
    ghost var one := data[..];
    assert one == SELECTOR + zeros[SELECTOR_LEN..];
    CopyInto(data, ADDR_OFF, to);
    AssembledCalldata(zeros, one, data[..], to, amount);
    assert data[..][..AMOUNT_OFF] == data[..AMOUNT_OFF];
  }

  method EncodeTransfer(to: Address, amount: BigInt?) returns (r: Result<array<byte>, CodecError>)
    ensures r.Ok? <==> amount != null && FitsWord(amount.v)
    ensures r.Err? ==> r.error == EncodeAmountRange
    ensures r.Ok? ==> fresh(r.value) && r.value[..] == TransferBytes(to, amount.v)
  {
    if amount == null || amount.v < 0 || amount.v >= Pow256(WORD_LEN) {
      return Err(EncodeAmountRange);
    }
    var data := SelectorAndAddress(to, amount.v);
    FillBytes(data, AMOUNT_OFF, amount.v);
    return Ok(data);
  }

  method DecodeTransfer(data: array<byte>) returns (r: Result<Decoded, CodecError>)
    ensures r == DecodeSpec(data[..])
  {
    if data.Length != CALLDATA_LEN {
      return Err(CalldataLength);
    }
    if data[..SELECTOR_LEN] != SELECTOR {
      return Err(NotTransfer);
    }
    if data[ADDR_WORD_OFF..ADDR_OFF] != Zeros(WORD_LEN - ADDRESS_LEN) {
      return Err(DirtyAddressWord);
    }
    return Ok(Decoded(data[ADDR_OFF..AMOUNT_OFF], FromBigEndian(data[AMOUNT_OFF..])));
  }
}
