// USDC on Arc is one pool of funds seen at 18 and at 6 decimals.
module Native {
  import opened Wrappers

  const NATIVE_SCALE: nat := 1_000_000_000_000

  // The residue, if the two balances are consistent. The relation is truncation.
  function AssertNativeViewConsistent(native: Option<int>, erc20: Option<int>): Option<int> {
    if native.None? || erc20.None? then None
    else if native.value < 0 || erc20.value < 0 then None
    else
      var dust := native.value - erc20.value * NATIVE_SCALE;
      if dust < 0 || dust >= NATIVE_SCALE then None else Some(dust)
  }

  lemma ConsistentIffTruncation(native: nat, erc20: nat)
    ensures AssertNativeViewConsistent(Some(native), Some(erc20)) ==
            if erc20 == native / NATIVE_SCALE then Some(native % NATIVE_SCALE) else None
  {
  }
}
