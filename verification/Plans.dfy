// What a settlement builds, and the outside world it runs against. The plan is
// mutable and shares big integers with whoever tampers with it; a built
// transaction is an immutable value.
module Plans {
  import opened Wrappers
  import opened Bytes
  import opened Transfer
  import opened Guard
  import Files

  datatype Network = Network(chainID: u64, usdc: Address)

  // A signing key, known by the address its signatures recover to.
  datatype Key = Key(addr: Address)

  datatype Tx = Tx(
    dynamic: bool, chainID: int, nonce: u64, tip: int, feeCap: int, gas: u64,
    to: Option<Address>, value: int, data: Bytes, accessListLen: nat)

  datatype Signed = Signed(tx: Tx, sender: Address)

  // One of the five, or none, or another integer altogether.
  method Pick(a: BigInt?, b: BigInt?, c: BigInt?, d: BigInt?, e: BigInt?) returns (r: BigInt?)
    ensures r == null || r in {a, b, c, d, e} || fresh(r)
  {
    if
    case true => r := null;
    case true => r := a;
    case true => r := b;
    case true => r := c;
    case true => r := d;
    case true => r := e;
    case true =>
      var v: int := *;
      r := new BigInt(v);
  }

  method PickBox(a: AddressBox?) returns (r: AddressBox?)
    ensures r == null || r == a || fresh(r)
  {
    if
    case true => r := null;
    case true => r := a;
    case true =>
      var to: Address := *;
      r := new AddressBox(to);
  }

  function OrZero(x: BigInt?): int
    reads x
  {
    if x == null then 0 else x.v
  }

  class Plan {
    var asset: Address
    var merchant: Address
    var payer: Address
    var amount: BigInt?
    var nonce: u64
    var gasLimit: u64
    var feeCap: BigInt?
    var tip: BigInt?
    var chainBase: u64
    // Demonstration knobs; zero in every production settlement.
    var legacy: bool
    var chainIDOverride: BigInt?
    var nativeValue: BigInt?
    var toOverride: AddressBox?
    var overlay: bool        // a DataOverlay is installed; what it returns is anyone's choice
    var accessListLen: nat

    // NewPlan: the amount is copied, the fee and the tip are shared.
    constructor (net: Network, merchant: Address, payer: Address, amount: BigInt, nonce: u64, feeCap: BigInt,
                 tip: BigInt)
      ensures this.asset == net.usdc && this.merchant == merchant && this.payer == payer
      ensures fresh(this.amount) && this.amount != null && this.amount.v == amount.v
      ensures this.nonce == nonce && this.feeCap == feeCap && this.tip == tip && this.chainBase == net.chainID
      ensures Untampered()
    {
      asset, this.merchant, this.payer := net.usdc, merchant, payer;
      var copy := new BigInt(amount.v);
      this.amount := copy;
      this.nonce, gasLimit, this.feeCap, this.tip, chainBase := nonce, 0, feeCap, tip, net.chainID;
      legacy, chainIDOverride, nativeValue, toOverride, overlay, accessListLen := false, null, null, null, false, 0;
    }

    predicate Untampered()
      reads this
    {
      !legacy && chainIDOverride == null && nativeValue == null && toOverride == null && !overlay && accessListLen == 0
    }

    // Everything the plan points to, and may share with whoever tampers with it.
    ghost function Shared(): set<object?>
      reads this
    {
      {amount, feeCap, tip, chainIDOverride, nativeValue, toOverride}
    }

    // Anything a Tamper, or a DataOverlay it installed, may do: rewrite the plan
    // and, in place, whatever the plan points to.
    method Rewrite()
      modifies this, Shared()
      ensures forall o <- Shared() :: o == null || o in old(Shared()) || fresh(o)
    {
      var a, f, t, c, v, o := amount, feeCap, tip, chainIDOverride, nativeValue, toOverride;
      modify this, Shared();
      amount := Pick(a, f, t, c, v);
      feeCap := Pick(a, f, t, c, v);
      tip := Pick(a, f, t, c, v);
      chainIDOverride := Pick(a, f, t, c, v);
      nativeValue := Pick(a, f, t, c, v);
      toOverride := PickBox(o);
    }

    // The transfer's calldata, or whatever an overlay makes of it.
    method Calldata() returns (r: Option<Bytes>)
      modifies if overlay then {this} + Shared() else {}
      ensures !old(overlay) ==>
        if amount != null && FitsWord(amount.v) then r == Some(TransferBytes(merchant, amount.v)) else r.None?
      ensures forall o <- Shared() :: o == null || o in old(Shared()) || fresh(o)
    {
      var enc := EncodeTransfer(merchant, amount);
      if enc.Err? {
        return None;
      }
      if overlay {
        Rewrite();
        var any: Bytes := *;
        return Some(any);
      }
      return Some(enc.value[..]);
    }

    // Build works on a copy of the plan, so an overlay cannot change which fields
    // it reads any more, but it can still change the integers they point to.
    method Build() returns (r: Option<Tx>)
      modifies if overlay then {this} + Shared() else {}
      ensures old(Untampered()) && amount != null && FitsWord(amount.v) && feeCap != null && tip != null ==>
        r == Some(Tx(true, chainBase, nonce, tip.v, feeCap.v, gasLimit, Some(asset), 0,
                     TransferBytes(merchant, amount.v), 0))
    {
      var nonce, gas, fee, tip, base, chain := nonce, gasLimit, feeCap, tip, chainBase, chainIDOverride;
      var legacy, target, value, asset, listLen := legacy, toOverride, nativeValue, asset, accessListLen;
      var data := Calldata();
      if data.None? {
        return None;
      }
      var to := if target == null then asset else target.a;
      if legacy {
        var derived: int := *;   // an unprotected legacy transaction derives its chain id from V
        return Some(Tx(false, derived, nonce, OrZero(fee), OrZero(fee), gas, Some(to), OrZero(value), data.value, 0));
      }
      return Some(Tx(true, if chain == null then base else chain.v, nonce, OrZero(tip), OrZero(fee), gas,
                     Some(to), OrZero(value), data.value, listLen));
    }
  }

  // A plan no one held before, and nothing it points to either.
  twostate predicate IsNew(new plan: Plan)
    reads plan
  {
    fresh(plan) && forall o <- plan.Shared() :: o == null || fresh(o)
  }

  function ViewOfTx(tx: Tx, signer: Address): Option<View> {
    if 0 <= tx.chainID < U64_LIMIT then
      Some(View(if tx.dynamic then TX_TYPE_DYNAMIC_FEE else 0, tx.chainID, tx.nonce, tx.gas,
                Some(tx.feeCap), tx.to, Some(tx.value), tx.data, tx.accessListLen, 0, 0, signer))
    else None
  }

  // ViewOf: every field read back off the built object, into memory of its own.
  method ReadBack(tx: Tx, signer: Address) returns (t: Option<Transaction>)
    ensures t.Some? == ViewOfTx(tx, signer).Some?
    ensures t.Some? ==> fresh(Footprint(t.value)) && ViewOfTx(tx, signer) == Some(ViewOf(t.value))
  {
    if tx.chainID < 0 || tx.chainID >= U64_LIMIT {
      return None;
    }
    var fee := new BigInt(tx.feeCap);
    var value := new BigInt(tx.value);
    var to: AddressBox? := null;
    if tx.to.Some? {
      to := new AddressBox(tx.to.value);
    }
    var data := new byte[|tx.data|](i requires 0 <= i < |tx.data| => tx.data[i]);
    assert data[..] == tx.data;
    return Some(Transaction(if tx.dynamic then TX_TYPE_DYNAMIC_FEE else 0, tx.chainID, tx.nonce, tx.gas,
                            fee, to, value, data, tx.accessListLen, 0, 0, signer));
  }

  function AsInt(answer: Option<nat>): Option<int> {
    if answer.None? then None else Some(answer.value)
  }

  // How a request that has no answer but success is remembered.
  function Done(ok: bool): Option<int> {
    if ok then Some(1) else None
  }

  // The endpoint, the clock and the signer. Every answer is the adversary's; the
  // history says what was answered, signed and broadcast. A broadcast that reports
  // an error may have reached the chain, so it is in the history too.
  class World {
    ghost var asked: seq<Option<int>>   // every answer to a question, in order; None is an error
    ghost var signed: seq<Signed>
    ghost var signedAt: int
    ghost var sent: seq<Signed>
    ghost var receipts: seq<(Files.TxHash, Files.Receipt)>   // every look for a receipt, and what it found
    ghost var readings: seq<int>         // every time read off the clock, in order
    var time: int

    constructor ()
      ensures asked == [] && signed == [] && sent == [] && receipts == [] && readings == []
    {
      asked, signed, signedAt, sent, receipts, readings, time := [], [], 0, [], [], [], 0;
    }

    method Now() returns (t: int)
      modifies `time, `readings
      ensures t == time >= old(time) && readings == old(readings) + [t]
    {
      t :| t >= time;
      time, readings := t, readings + [t];
    }

    // A call that answers with a number or an error.
    method Ask() returns (answer: Option<int>)
      modifies `asked
      ensures asked == old(asked) + [answer]
    {
      answer := *;
      asked := asked + [answer];
    }

    method AskNat() returns (answer: Option<nat>)
      modifies `asked
      ensures asked == old(asked) + [AsInt(answer)]
    {
      answer := *;
      asked := asked + [AsInt(answer)];
    }

    method AskU64() returns (answer: Option<u64>)
      modifies `asked
      ensures asked == old(asked) + [AsInt(answer)]
    {
      answer := *;
      asked := asked + [AsInt(answer)];
    }

    // The receipt of a transaction, if there is one.
    method LookFor(tx: Files.TxHash) returns (found: Files.Receipt)
      modifies `receipts
      ensures receipts == old(receipts) + [(tx, found)]
    {
      found := *;
      receipts := receipts + [(tx, found)];
    }

    // SignTx keeps every field but the chain id, which is the signer's; Sender
    // recovers the address of the key that signed.
    method Sign(tx: Tx, chainID: u64, key: Key) returns (s: Option<Signed>)
      modifies `signed, `signedAt, `asked
      ensures s.Some? ==> s.value == Signed(tx.(chainID := chainID), key.addr)
      ensures s.Some? ==> signed == old(signed) + [s.value] && signedAt == time
      ensures s.None? ==> signed == old(signed) && signedAt == old(signedAt)
      ensures asked == old(asked) + [Done(s.Some?)]
    {
      var fails: bool := *;
      if fails {
        asked := asked + [Done(false)];
        return None;
      }
      s := Some(Signed(tx.(chainID := chainID), key.addr));
      signed, signedAt, asked := signed + [s.value], time, asked + [Done(true)];
    }

    method SendTransaction(s: Signed) returns (ok: bool)
      modifies `sent, `asked
      ensures sent == old(sent) + [s] && asked == old(asked) + [Done(ok)]
    {
      ok := *;
      sent, asked := sent + [s], asked + [Done(ok)];
    }
  }
}
