// The guard for log checkpoints. It accepts a transaction that moves nothing and
// carries exactly one log head, and shares no transaction with the payment guard.
module CheckpointGuard {
  import opened Wrappers
  import opened Bytes
  import opened Transfer
  import Guard

  const TAG: Bytes :=
    [115, 112, 116, 45, 116, 120, 110, 47, 116, 114, 97, 110, 115, 108, 111, 103, 45,
     99, 104, 101, 99, 107, 112, 111, 105, 110, 116, 47, 118, 49]   // "spt-txn/translog-checkpoint/v1"

  type Root = s: Bytes | |s| == 32 witness Zeros(32)

  function CheckpointData(n: u64, root: Root): (d: Bytes)
    ensures |d| == 70
  {
    TAG + BigEndian(n, 8) + root
  }

  lemma CheckpointDataIsInjective(n: u64, root: Root, m: u64, other: Root)
    requires CheckpointData(n, root) == CheckpointData(m, other)
    ensures n == m && root == other
  {
    Pow256IsFixed();
    var d := CheckpointData(n, root);
    assert d[30..38] == BigEndian(n, 8) == BigEndian(m, 8);
    assert d[38..] == root == other;
    DecodeBigEndian(n, 8);
    DecodeBigEndian(m, 8);
  }

  datatype Binding = Binding(chainID: u64, from: Address, nonce: u64, n: u64, root: Root, maxGasCost: Option<int>)

  datatype Error = BadBinding | Shape | Data | Gas

  predicate Complete(b: Binding) {
    b.chainID != 0 && !IsZero(b.from) && b.maxGasCost.Some? && b.maxGasCost.value > 0
  }

  function VerifyCheckpoint(t: Guard.View, b: Binding): Option<Error> {
    if !Complete(b) then Some(BadBinding)
    else if t.txType != Guard.TX_TYPE_DYNAMIC_FEE then Some(Shape)
    else if t.accessListLen != 0 || t.authorizationListLen != 0 || t.blobHashLen != 0 then Some(Shape)
    else if t.chainID != b.chainID || t.nonce != b.nonce then Some(Shape)
    else if t.to.None? || t.to.value != b.from || t.signer != b.from then Some(Shape)
    else if t.value.None? || t.value.value != 0 then Some(Shape)
    else if t.data != CheckpointData(b.n, b.root) then Some(Data)
    else if t.maxFeePerGas.None? || t.maxFeePerGas.value < 0 then Some(Gas)
    else if t.gasLimit * t.maxFeePerGas.value > b.maxGasCost.value then Some(Gas)
    else None
  }

  // The one transaction a binding describes, up to its gas limit and fee cap.
  function Expected(b: Binding, gasLimit: u64, maxFeePerGas: nat): Guard.View {
    Guard.View(Guard.TX_TYPE_DYNAMIC_FEE, b.chainID, b.nonce, gasLimit, Some(maxFeePerGas), Some(b.from), Some(0),
               CheckpointData(b.n, b.root), 0, 0, 0, b.from)
  }

  // One transaction under two bindings: they name the same key, nonce, size and
  // root, and it is the transaction both describe.
  lemma AcceptedFixesBinding(t: Guard.View, b: Binding, c: Binding)
    requires VerifyCheckpoint(t, b).None?
    ensures t.maxFeePerGas.Some? && t.maxFeePerGas.value >= 0
    ensures t == Expected(b, t.gasLimit, t.maxFeePerGas.value)
    ensures VerifyCheckpoint(t, c).None? <==>
            && c == b.(maxGasCost := c.maxGasCost)
            && c.maxGasCost.Some? && c.maxGasCost.value > 0 && t.gasLimit * t.maxFeePerGas.value <= c.maxGasCost.value
  {
    if VerifyCheckpoint(t, c).None? {
      CheckpointDataIsInjective(b.n, b.root, c.n, c.root);
    }
  }

  // No transaction passes both guards, whatever the two bindings.
  lemma GuardsAreDisjoint(t: Guard.View, p: Guard.Terms, b: Binding)
    ensures Guard.Check(t, p).Some? || VerifyCheckpoint(t, b).Some?
  {
    if Guard.Check(t, p).None? {
      assert |t.data| == CALLDATA_LEN == 68;
    }
  }
}
