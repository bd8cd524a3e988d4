// The settlement sequence: check, ask, plan, bind, build, guard, sign, re-check,
// broadcast once. Its contract holds against every endpoint and every tamper.
module Settle {
  import opened Wrappers
  import opened Bytes
  import opened Transfer
  import opened Guard
  import opened Native
  import opened Atomic
  import opened Plans

  const MAX_GAS_LIMIT := 10_000_000
  const FALLBACK_GAS := 100_000

  // Base58 is not part of this model; any encoder will do where it is only
  // compared with itself.
  type Encoder = Bytes -> string

  function Transport(b58: Encoder, a: Address): string {
    b58(AccountID32(a))
  }

  datatype Payment = Payment(
    authorization: string, recipient: Address, payTo: string, asset: string, amountMicro: string, notAfter: Option<int>)

  datatype Config = Config(
    net: Network, hasClient: bool, key: Option<Key>, maxFeeMicro: u64, nonceCheck: bool, b58: Encoder)

  datatype Demo = Demo(dryRun: bool, tamper: bool, decoy: Option<Key>)

  datatype Outcome = DryRun | Settled(tx: Signed, gasUsed: nat)

  // What the payment alone must satisfy, and the amount it then authorizes.
  predicate Authorizes(b58: Encoder, net: Network, p: Payment, micro: nat) {
    && p.authorization != "" && p.notAfter.Some? && !IsZero(p.recipient)
    && p.payTo == Transport(b58, p.recipient)
    && p.asset == Transport(b58, net.usdc)
    && 1 <= micro < U64_LIMIT && p.amountMicro == Decimal(micro)
  }

  method CheckPayment(b58: Encoder, net: Network, p: Payment) returns (r: Result<u64, Refusal>)
    ensures forall micro: nat :: r == Ok(micro) <==> Authorizes(b58, net, p, micro)
    ensures r.Err? ==> r.error == Violation
  {
    if p.authorization == "" || p.notAfter.None? || IsZero(p.recipient) {
      return Err(Violation);
    }
    if p.payTo != Transport(b58, p.recipient) || p.asset != Transport(b58, net.usdc) {
      return Err(Violation);
    }
    var v := ParseAtomic(p.amountMicro);
    if v.None? {
      assert forall micro: nat :: v != Some(micro);
      return Err(Violation);
    }
    return Ok(v.value);
  }

  // The terms a settlement binds: everything but the nonce is fixed in advance.
  function TermsFor(cfg: Config, recipient: Address, micro: nat, nonce: u64): Terms
    requires cfg.key.Some?
  {
    Terms(cfg.net.chainID, cfg.net.usdc, recipient, cfg.key.value.addr, micro, nonce, cfg.maxFeeMicro * NATIVE_SCALE)
  }

  // The transaction is exactly the authorized transfer, within the fee ceiling.
  predicate PaysExactly(b: Terms, tx: Tx) {
    && tx.feeCap >= 0
    && tx.dynamic && tx.chainID == b.chainID && tx.nonce == b.nonce
    && tx.to == Some(b.asset) && tx.value == 0 && tx.accessListLen == 0
    && tx.data == TransferBytes(b.payTo, b.amount)
    && tx.gas * tx.feeCap <= b.maxGasCost
  }

  lemma AcceptedPaysExactly(tx: Tx, signer: Address, b: Terms)
    requires WellFormedTerms(b) && ViewOfTx(tx, signer).Some?
    requires Check(ViewOfTx(tx, signer).value, b).None?
    ensures PaysExactly(b, tx) && signer == b.payer
  {
    AcceptsIffExpected(ViewOfTx(tx, signer).value, b);
  }

  // ---- the endpoint's answers, in the order they are asked for ----

  // The endpoint is on the configured network, reports enough USDC, and reports
  // a native balance of which that is the truncation.
  predicate Funded(net: Network, micro: nat, a: seq<Option<int>>) {
    && |a| >= 3 && a[0] == Some(net.chainID) && a[1].Some? && a[2].Some?
    && a[1].value >= micro && a[1].value > 0 && a[1].value == a[2].value / NATIVE_SCALE
  }

  // And its pending and confirmed nonce are this one, as is the second
  // endpoint's, if there is one.
  predicate Agreed(cfg: Config, micro: nat, nonce: u64, a: seq<Option<int>>) {
    && Funded(cfg.net, micro, a)
    && |a| >= 5 && a[3] == a[4] == Some(nonce)
    && (cfg.nonceCheck ==> |a| >= 6 && a[5] == Some(nonce))
  }

  // How many answers that takes.
  function Asked(cfg: Config): nat {
    if cfg.nonceCheck then 6 else 5
  }

  // Then the tip, the base fee and the gas estimate, within its sanity bound.
  predicate Priced(cfg: Config, a: seq<Option<int>>) {
    var q := Asked(cfg);
    && |a| >= q + 3 && a[q].Some? && a[q + 1].Some? && a[q + 2].Some? && 0 <= a[q + 2].value <= MAX_GAS_LIMIT
  }

  // What an untampered plan with this tip, fee cap and gas is built into.
  function TxOf(cfg: Config, recipient: Address, micro: nat, nonce: u64, tip: int, feeCap: int, gas: u64): Tx {
    Tx(true, cfg.net.chainID, nonce, tip, feeCap, gas, Some(cfg.net.usdc), 0, TransferBytes(recipient, micro), 0)
  }

  // The transaction that those answers call for: twice the base fee and the tip
  // for the fee cap, the estimate and a fifth for the gas.
  function Planned(cfg: Config, recipient: Address, micro: u64, nonce: u64, a: seq<Option<int>>): Tx
    requires Priced(cfg, a)
  {
    var q := Asked(cfg);
    var tip, base, gas := a[q].value, a[q + 1].value, a[q + 2].value;
    TxOf(cfg, recipient, micro, nonce, tip, 2 * base + tip, gas + gas / 5)
  }

  predicate WithinCeiling(cfg: Config, tx: Tx) {
    tx.feeCap >= 0 && tx.gas * tx.feeCap <= cfg.maxFeeMicro * NATIVE_SCALE
  }

  predicate Completed(a: seq<Option<int>>, from: nat) {
    |a| >= from + 3 && a[from].Some? && a[from + 1].Some? && a[from + 2] == Some(1)
  }

  // And last, unless it is a dry run, the signature, the broadcast and a receipt
  // of success. The planned transaction must be within the fee ceiling.
  predicate Favourable(cfg: Config, recipient: Address, micro: u64, nonce: u64, dryRun: bool, a: seq<Option<int>>) {
    && Agreed(cfg, micro, nonce, a) && Priced(cfg, a)
    && WithinCeiling(cfg, Planned(cfg, recipient, micro, nonce, a))
    && (!dryRun ==> Completed(a, Asked(cfg) + 3))
  }

  // ---- asking ----

  function NonceAnswers(nonce: u64, second: bool): seq<Option<int>> {
    [Some(nonce), Some(nonce)] + (if second then [Some(nonce)] else [])
  }

  // BoundNonce, and the optional second endpoint that must agree; a is what was
  // answered.
  method BoundNonce(w: World, second: bool) returns (r: Result<u64, Refusal>, ghost a: seq<Option<int>>)
    modifies w`asked
    ensures w.asked == old(w.asked) + a
    ensures r.Ok? ==> a == NonceAnswers(r.value, second)
    ensures r.Err? ==> |a| < |NonceAnswers(0, second)| || forall n: u64 :: a != NonceAnswers(n, second)
    ensures |a| <= |NonceAnswers(0, second)|
  {
    var pending := w.AskU64();
    a := [AsInt(pending)];
    if pending.None? { return Err(Violation), a; }
    var confirmed := w.AskU64();
    a := a + [AsInt(confirmed)];
    if confirmed.None? || pending.value != confirmed.value {
      assert a[0] != a[1];
      return Err(Violation), a;
    }
    if second {
      var other := w.AskU64();
      a := a + [AsInt(other)];
      if other.None? {
        assert a[2].None?;
        return Err(Unavailable), a;
      }
      if other.value != pending.value {
        assert a[0] != a[2];
        return Err(Violation), a;
      }
    }
    return Ok(pending.value), a;
  }

  // What must hold of the chain and the payer's balances before anything is built.
  method Preflight(w: World, net: Network, micro: u64) returns (e: Option<Refusal>, ghost a: seq<Option<int>>)
    modifies w`asked
    ensures w.asked == old(w.asked) + a && |a| <= 3
    ensures e.None? <==> Funded(net, micro, a)
  {
    var reported := w.Ask();
    a := [reported];
    if reported.None? { return Some(Unavailable), a; }
    if reported.value != net.chainID { return Some(Violation), a; }
    var bal := w.AskNat();
    a := a + [AsInt(bal)];
    if bal.None? || bal.value < micro || bal.value == 0 { return Some(Unavailable), a; }
    var native := w.Ask();
    a := a + [native];
    if native.None? { return Some(Violation), a; }
    var dust := AssertNativeViewConsistent(native, Some(bal.value));
    if native.value >= 0 {
      ConsistentIffTruncation(native.value, bal.value);
    }
    if dust.None? { return Some(Violation), a; }
    return None, a;
  }

  // Preflight, then the nonce to bind.
  method AgreeOnNonce(w: World, cfg: Config, micro: u64) returns (r: Result<u64, Refusal>, ghost a: seq<Option<int>>)
    modifies w`asked
    ensures w.asked == old(w.asked) + a
    ensures r.Ok? ==> |a| == Asked(cfg) && Agreed(cfg, micro, r.value, a)
    ensures r.Err? ==> forall n: u64 :: !Agreed(cfg, micro, n, a)
  {
    var refused;
    refused, a := Preflight(w, cfg.net, micro);
    if refused.Some? { return Err(refused.value), a; }
    ghost var b;
    r, b := BoundNonce(w, cfg.nonceCheck);
    ghost var f := a;
    a := f + b;
    forall n: u64 | Agreed(cfg, micro, n, a)
      ensures b == NonceAnswers(n, cfg.nonceCheck)
    {
      assert forall k: nat :: k < |b| ==> a[3 + k] == b[k];
    }
  }

  // The estimate with a fifth of headroom, within a sanity bound; a tampered
  // payload that cannot be estimated gets a fixed limit, for the guard to judge.
  method EstimateGas(w: World, tampered: bool) returns (r: Result<u64, Refusal>)
    modifies w`asked
    ensures |w.asked| == |old(w.asked)| + 1 && old(w.asked) <= w.asked
    ensures var answer := w.asked[|old(w.asked)|];
      r == match answer {
        case None => if tampered then Ok(FALLBACK_GAS) else Err(Unavailable)
        case Some(gas) => if gas > MAX_GAS_LIMIT then Err(Violation) else Ok(gas + gas / 5)
      }
  {
    var estimate := w.AskU64();
    if estimate.None? {
      if tampered { return Ok(FALLBACK_GAS); }
      return Err(Unavailable);
    }
    if estimate.value > MAX_GAS_LIMIT { return Err(Violation); }
    return Ok(estimate.value + estimate.value / 5);
  }

  method Bind(cfg: Config, recipient: Address, micro: BigInt, nonce: u64, maxGasCost: BigInt)
    returns (r: Result<BoundPayment, Refusal>)
    requires cfg.key.Some? && 0 < micro.v < U64_LIMIT && maxGasCost.v == cfg.maxFeeMicro * NATIVE_SCALE
    ensures r.Ok? ==>
      && IsBound(r.value) && fresh(BoundFootprint(r.value))
      && TermsOf(r.value) == TermsFor(cfg, recipient, micro.v, nonce)
    ensures r.Err? ==> r.error == Violation
    ensures r.Ok? <==> cfg.net.chainID != 0 && !IsZero(cfg.net.usdc) && !IsZero(recipient)
                       && !IsZero(cfg.key.value.addr) && cfg.maxFeeMicro > 0
  {
    var copy := new BigInt(micro.v);
    var ids := (AccountID32(cfg.net.usdc), AccountID32(recipient), AccountID32(cfg.key.value.addr));
    Pow256IsFixed();
    PowIsMonotone(8, 16);
    BindIff(cfg.net.chainID, ids.0, ids.1, ids.2, Some(micro.v), nonce, Some(maxGasCost.v),
            TermsFor(cfg, recipient, micro.v, nonce));
    var bound := NewBoundPayment(Guard.Binding(cfg.net.chainID, ids.0, ids.1, ids.2, copy, nonce, maxGasCost));
    if bound.Err? { return Err(Violation); }
    NarrowIffWidened(ids.0, cfg.net.usdc);
    NarrowIffWidened(ids.1, recipient);
    NarrowIffWidened(ids.2, cfg.key.value.addr);
    return Ok(bound.value);
  }

  // What one settlement may have signed or broadcast: nothing, or one
  // transaction that pays exactly the terms.
  predicate AtMostThisPayment(b: Terms, was: seq<Signed>, now: seq<Signed>) {
    now == was || (|now| > |was| && now == was + [now[|was|]] && PaysExactly(b, now[|was|].tx))
  }

  // The plan, tampered with or not.
  method Draft(cfg: Config, recipient: Address, amount: BigInt, nonce: u64, tipWei: int, baseFee: int, tampered: bool)
    returns (plan: Plan)
    requires cfg.key.Some?
    ensures IsNew(plan)
    ensures !tampered ==>
      && plan.Untampered() && plan.asset == cfg.net.usdc && plan.merchant == recipient
      && plan.amount != null && plan.amount.v == amount.v
      && plan.nonce == nonce && plan.chainBase == cfg.net.chainID
      && plan.tip != null && plan.tip.v == tipWei && plan.feeCap != null && plan.feeCap.v == 2 * baseFee + tipWei
  {
    var tip := new BigInt(tipWei);
    var feeCap := new BigInt(2 * baseFee + tipWei);
    plan := new Plan(cfg.net, recipient, cfg.key.value.addr, amount, nonce, feeCap, tip);
    if tampered { plan.Rewrite(); }
  }

  // An estimate the plan can be given.
  predicate Usable(answer: Option<int>) {
    answer.Some? && 0 <= answer.value <= MAX_GAS_LIMIT
  }

  // The gas its payload is estimated at; a is what was answered, if it was asked.
  method SetGas(w: World, plan: Plan, tampered: bool) returns (e: Option<Refusal>, ghost a: seq<Option<int>>)
    requires w !in plan.Shared()
    modifies w`asked, plan, plan.Shared()
    ensures w.asked == old(w.asked) + a
    ensures forall o <- plan.Shared() :: o == null || o in old(plan.Shared()) || fresh(o)
    ensures old(plan.Untampered()) && !tampered ==>
      && unchanged(plan`asset, plan`merchant, plan`amount, plan`nonce, plan`feeCap, plan`tip, plan`chainBase)
      && unchanged(old(plan.Shared()) - {null}) && plan.Untampered()
    ensures old(plan.Untampered() && plan.amount != null && FitsWord(plan.amount.v)) && !tampered ==>
      && |a| == 1 && (e.None? <==> Usable(a[0]))
      && (e.None? ==> plan.gasLimit == a[0].value + a[0].value / 5)
  {
    a := [];
    var data := plan.Calldata();
    if data.None? { return Some(Violation), a; }
    var gas := EstimateGas(w, tampered);
    a := [w.asked[|old(w.asked)|]];
    if gas.Err? { return Some(gas.error), a; }
    plan.gasLimit := gas.value;
    return None, a;
  }

  // Everything the binding needs besides the amount and the nonce.
  predicate Bindable(cfg: Config, recipient: Address) {
    && cfg.key.Some? && cfg.net.chainID != 0 && !IsZero(cfg.net.usdc) && !IsZero(recipient)
    && !IsZero(cfg.key.value.addr) && cfg.maxFeeMicro > 0
  }

  // Bind what was authorized, then build what the plan says.
  method BindAndBuild(cfg: Config, plan: Plan, recipient: Address, amount: BigInt, nonce: u64, maxGasCost: BigInt)
    returns (r: Result<(Tx, BoundPayment), Refusal>)
    requires cfg.key.Some? && 0 < amount.v < U64_LIMIT && maxGasCost.v == cfg.maxFeeMicro * NATIVE_SCALE
    modifies plan, plan.Shared()
    ensures r.Ok? ==>
      && IsBound(r.value.1) && fresh(BoundFootprint(r.value.1))
      && TermsOf(r.value.1) == old(TermsFor(cfg, recipient, amount.v, nonce))
    ensures old(plan.Untampered() && plan.amount != null && FitsWord(plan.amount.v)
                && plan.feeCap != null && plan.tip != null) ==>
      && (r.Ok? <==> Bindable(cfg, recipient))
      && (r.Ok? ==> r.value.0 == old(Tx(true, plan.chainBase, plan.nonce, plan.tip.v, plan.feeCap.v, plan.gasLimit,
                                       Some(plan.asset), 0, TransferBytes(plan.merchant, plan.amount.v), 0)))
  {
    var bound := Bind(cfg, recipient, amount, nonce, maxGasCost);
    if bound.Err? { return Err(bound.error); }
    var built := plan.Build();
    if built.None? { return Err(Violation); }
    return Ok((built.value, bound.value));
  }

  lemma U64FitsWord(n: u64)
    ensures FitsWord(n)
  {
    Pow256IsFixed();
  }

  // The plan, its gas, the binding and the built transaction. `gas` is what the
  // endpoint was asked and answered for it.
  method PlanAndBuild(w: World, cfg: Config, recipient: Address, micro: u64, nonce: u64,
                      tip: int, baseFee: int, tampered: bool)
    returns (r: Result<(Tx, BoundPayment), Refusal>, ghost gas: seq<Option<int>>)
    requires cfg.key.Some? && micro > 0
    modifies w`asked
    ensures w.asked == old(w.asked) + gas
    ensures r.Ok? ==>
      && IsBound(r.value.1) && fresh(BoundFootprint(r.value.1))
      && TermsOf(r.value.1) == TermsFor(cfg, recipient, micro, nonce)
    ensures !tampered ==>
      && |gas| == 1 && (r.Ok? <==> Usable(gas[0]) && Bindable(cfg, recipient))
      && (r.Ok? ==> r.value.0 == TxOf(cfg, recipient, micro, nonce, tip, 2 * baseFee + tip,
                                      gas[0].value + gas[0].value / 5))
  {
    U64FitsWord(micro);
    var amount := new BigInt(micro);
    var maxGasCost := new BigInt(cfg.maxFeeMicro * NATIVE_SCALE);
    var plan := Draft(cfg, recipient, amount, nonce, tip, baseFee, tampered);
    var refused;
    refused, gas := SetGas(w, plan, tampered);
    if refused.Some? { return Err(refused.value), gas; }
    r := BindAndBuild(cfg, plan, recipient, amount, nonce, maxGasCost);
  }

  // Everything before the guard: preflight, nonce, fees, plan, gas, binding,
  // build. Whatever was built, the binding is the authorized terms; and unless the
  // plan was tampered with, what was built is what the answers call for.
  method Prepare(w: World, cfg: Config, recipient: Address, micro: u64, tampered: bool)
    returns (r: Result<(Tx, BoundPayment), Refusal>, ghost nonce: u64, ghost a: seq<Option<int>>)
    requires cfg.key.Some? && micro > 0
    modifies w`asked
    ensures w.asked == old(w.asked) + a
    ensures r.Ok? ==>
      && IsBound(r.value.1) && fresh(BoundFootprint(r.value.1))
      && TermsOf(r.value.1) == TermsFor(cfg, recipient, micro, nonce)
      && Agreed(cfg, micro, nonce, a)
    ensures !tampered ==>
      && (r.Ok? <==> Agreed(cfg, micro, nonce, a) && Priced(cfg, a) && Bindable(cfg, recipient))
      && (r.Ok? ==> |a| == Asked(cfg) + 3 && r.value.0 == Planned(cfg, recipient, micro, nonce, a))
  {
    nonce := 0;
    var bn;
    bn, a := AgreeOnNonce(w, cfg, micro);
    if bn.Err? { return Err(bn.error), nonce, a; }
    nonce := bn.value;
    var tip := w.Ask();
    a := a + [tip];
    if tip.None? { return Err(Unavailable), nonce, a; }
    var baseFee := w.Ask();
    a := a + [baseFee];
    if baseFee.None? { return Err(Unavailable), nonce, a; }
    ghost var gas;
    r, gas := PlanAndBuild(w, cfg, recipient, micro, bn.value, tip.value, baseFee.value, tampered);
    a := a + gas;
  }

  // Read the built transaction back and put it to the guard.
  method PreSign(tx: Tx, signer: Address, bound: BoundPayment) returns (r: Option<Verified>)
    requires IsBound(bound)
    ensures r.Some? ==>
      && IsVerified(r.value) && r.value.b == bound && fresh(Footprint(r.value.tx))
      && ViewOfTx(tx, signer) == Some(ViewOf(r.value.tx))
      && PaysExactly(TermsOf(bound), tx)
    ensures r.None? ==> ViewOfTx(tx, signer).None? || Check(ViewOfTx(tx, signer).value, TermsOf(bound)).Some?
  {
    var view := ReadBack(tx, signer);
    if view.None? { return None; }
    var verified := Verify(view.value, bound);
    if verified.Err? { return None; }
    AcceptedPaysExactly(tx, signer, TermsOf(bound));
    return Some(verified.value);
  }

  // Read the signed transaction back, with its recovered sender, and compare.
  method PostSign(v: Verified, s: Signed) returns (same: bool)
    requires IsVerified(v)
    ensures same <==> ViewOfTx(s.tx, s.sender) == Some(ViewOf(v.tx))
  {
    var view := ReadBack(s.tx, s.sender);
    if view.None? { return false; }
    var diverged := AssertSame(v, view.value);
    return diverged.None?;
  }

  predicate Accepted(cfg: Config, tx: Tx, b: Terms)
    requires cfg.key.Some?
  {
    var view := ViewOfTx(tx, cfg.key.value.addr);
    view.Some? && Check(view.value, b).None?
  }

  // What the answers call for is accepted exactly if it is within the ceiling.
  lemma PlannedIsAccepted(cfg: Config, recipient: Address, micro: u64, nonce: u64, a: seq<Option<int>>)
    requires Bindable(cfg, recipient) && Priced(cfg, a) && WellFormedTerms(TermsFor(cfg, recipient, micro, nonce))
    ensures var tx := Planned(cfg, recipient, micro, nonce, a);
      Accepted(cfg, tx, TermsFor(cfg, recipient, micro, nonce)) <==> WithinCeiling(cfg, tx)
  {
    var tx := Planned(cfg, recipient, micro, nonce, a);
    AcceptsIffExpected(ViewOfTx(tx, cfg.key.value.addr).value, TermsFor(cfg, recipient, micro, nonce));
  }

  // Guard, sign, re-check. Ok(None) is a dry run that passed the guard; anything
  // else that is Ok is ready to broadcast. a is whether the signer answered, if it
  // was asked.
  method GuardAndSign(w: World, cfg: Config, d: Demo, tx: Tx, bound: BoundPayment, notAfter: int)
    returns (r: Result<Option<Signed>, Refusal>, ghost a: seq<Option<int>>)
    requires cfg.key.Some? && IsBound(bound) && w !in BoundFootprint(bound)
    requires TermsOf(bound).payer == cfg.key.value.addr && TermsOf(bound).chainID == cfg.net.chainID
    modifies w`asked, w`signed, w`signedAt, w`time, w`readings
    // A signature is made only for a transaction the guard accepted, in time.
    ensures w.signed == old(w.signed) ||
      (|w.signed| > |old(w.signed)| && w.signed == old(w.signed) + [w.signed[|old(w.signed)|]])
    ensures w.signed != old(w.signed) ==>
      && w.signed[|old(w.signed)|].tx == tx && PaysExactly(old(TermsOf(bound)), tx)
      && w.signedAt < notAfter && !d.dryRun
    ensures r.Ok? && r.value.None? <==> r.Ok? && d.dryRun
    ensures w.time >= old(w.time) && old(w.readings) <= w.readings
    ensures r.Ok? && r.value.Some? ==>
      w.signed == old(w.signed) + [r.value.value] && r.value.value.sender == cfg.key.value.addr
    ensures r.Ok? && d.decoy.Some? && r.value.Some? ==> d.decoy.value.addr == cfg.key.value.addr
    ensures w.asked == old(w.asked) + a && |a| <= 1
    ensures d.decoy.None? ==>
      (r.Ok? <==> old(Accepted(cfg, tx, TermsOf(bound))) && (d.dryRun || (w.time < notAfter && a == [Done(true)])))
    ensures d.dryRun ==> w.time == old(w.time)
  {
    a := [];
    var verified := PreSign(tx, cfg.key.value.addr, bound);
    if verified.None? { return Err(Violation), a; }
    if d.dryRun { return Ok(None), a; }

    var key := if d.decoy.Some? then d.decoy.value else cfg.key.value;
    var now := w.Now();
    if now >= notAfter { return Err(Violation), a; }
    var signed := w.Sign(tx, cfg.net.chainID, key);
    a := [Done(signed.Some?)];
    if signed.None? { return Err(Unavailable), a; }
    var same := PostSign(verified.value, signed.value);
    if !same { return Err(Violation), a; }
    return Ok(signed), a;
  }

  // Broadcast once and wait. An error after the broadcast does not undo it.
  method Broadcast(w: World, s: Signed) returns (r: Result<Outcome, Refusal>, ghost a: seq<Option<int>>)
    modifies w`sent, w`asked
    ensures w.asked == old(w.asked) + a
    ensures w.sent == old(w.sent) + [s]
    ensures r.Ok? <==> |a| >= 2 && a[0].Some? && a[1] == Some(1)
    ensures r.Ok? ==> r.value.Settled? && r.value.tx == s
  {
    var ok := w.SendTransaction(s);
    a := [Done(ok)];
    if !ok { return Err(Unavailable), a; }
    var status := w.AskNat();
    a := a + [AsInt(status)];
    if status != Some(1) { return Err(Unavailable), a; }
    var gasUsed := w.AskNat();
    a := a + [AsInt(gasUsed)];
    return Ok(Settled(s, if gasUsed.Some? then gasUsed.value else 0)), a;
  }

  // Everything after the transaction is built; a is what was answered.
  method SignAndBroadcast(w: World, cfg: Config, d: Demo, tx: Tx, bound: BoundPayment, notAfter: int)
    returns (r: Result<Outcome, Refusal>, ghost a: seq<Option<int>>)
    requires cfg.key.Some? && IsBound(bound) && w !in BoundFootprint(bound)
    requires TermsOf(bound).payer == cfg.key.value.addr && TermsOf(bound).chainID == cfg.net.chainID
    modifies w
    ensures w.asked == old(w.asked) + a
    ensures AtMostThisPayment(old(TermsOf(bound)), old(w.signed), w.signed)
    ensures w.sent == old(w.sent) || w.sent == old(w.sent) + w.signed[|old(w.signed)|..]
    ensures w.sent != old(w.sent) ==> w.sent[|old(w.sent)|].sender == cfg.key.value.addr
    ensures w.signed != old(w.signed) ==>
      w.signed[|old(w.signed)|].tx == tx && w.signedAt < notAfter && !d.dryRun
    ensures d.decoy.Some? && d.decoy.value.addr != cfg.key.value.addr ==> w.sent == old(w.sent)
    ensures r.Ok? && !d.dryRun ==> r.value.Settled? && w.sent == old(w.sent) + [r.value.tx]
    ensures d.decoy.None? ==>
      (r.Ok? <==> old(Accepted(cfg, tx, TermsOf(bound))) && (d.dryRun || (w.time < notAfter && Completed(a, 0))))
    ensures w.time >= old(w.time) && (d.dryRun ==> w.time == old(w.time)) && old(w.readings) <= w.readings
  {
    var ready;
    ready, a := GuardAndSign(w, cfg, d, tx, bound, notAfter);
    if ready.Err? { return Err(ready.error), a; }
    if ready.value.None? { return Ok(DryRun), a; }
    ghost var b;
    r, b := Broadcast(w, ready.value.value);
    a := a + b;
  }

  // The answers before the signature, then the rest.
  lemma FavourableIff(cfg: Config, recipient: Address, micro: u64, nonce: u64, dryRun: bool,
                      a: seq<Option<int>>, b: seq<Option<int>>)
    requires |a| == Asked(cfg) + 3
    ensures Agreed(cfg, micro, nonce, a + b) <==> Agreed(cfg, micro, nonce, a)
    ensures Priced(cfg, a + b) <==> Priced(cfg, a)
    ensures Priced(cfg, a) ==> Planned(cfg, recipient, micro, nonce, a + b) == Planned(cfg, recipient, micro, nonce, a)
    ensures Completed(a + b, Asked(cfg) + 3) <==> Completed(b, 0)
  {
  }

  lemma AgreedExtends(cfg: Config, micro: nat, nonce: u64, a: seq<Option<int>>, b: seq<Option<int>>)
    requires Agreed(cfg, micro, nonce, a)
    ensures Agreed(cfg, micro, nonce, a + b)
  {
  }

  // The settlement of a payment that passed every check that asks nothing.
  method Settle(w: World, cfg: Config, recipient: Address, micro: u64, notAfter: int, d: Demo)
    returns (r: Result<Outcome, Refusal>, ghost nonce: u64, ghost a: seq<Option<int>>)
    requires cfg.key.Some? && micro > 0 && w.time < notAfter
    modifies w
    ensures w.asked == old(w.asked) + a
    ensures AtMostThisPayment(TermsFor(cfg, recipient, micro, nonce), old(w.signed), w.signed)
    ensures w.sent == old(w.sent) || w.sent == old(w.sent) + w.signed[|old(w.signed)|..]
    ensures w.sent != old(w.sent) ==> w.sent[|old(w.sent)|].sender == cfg.key.value.addr
    ensures w.signed != old(w.signed) ==> Agreed(cfg, micro, nonce, a)
    ensures w.signed != old(w.signed) && !d.tamper ==>
      Priced(cfg, a) && w.signed[|old(w.signed)|].tx == Planned(cfg, recipient, micro, nonce, a)
    ensures w.signed != old(w.signed) ==> w.signedAt < notAfter && !d.dryRun
    ensures d.decoy.Some? && d.decoy.value.addr != cfg.key.value.addr ==> w.sent == old(w.sent)
    ensures r.Ok? && !d.dryRun ==> r.value.Settled? && w.sent == old(w.sent) + [r.value.tx]
    ensures !d.tamper && d.decoy.None? ==>
      (r.Ok? <==> Bindable(cfg, recipient) && w.time < notAfter
                  && Favourable(cfg, recipient, micro, nonce, d.dryRun, a))
    ensures w.time >= old(w.time) && old(w.readings) <= w.readings
  {
    var prepared;
    prepared, nonce, a := Prepare(w, cfg, recipient, micro, d.tamper);
    if prepared.Err? { return Err(prepared.error), nonce, a; }
    if !d.tamper {
      PlannedIsAccepted(cfg, recipient, micro, nonce, a);
    }
    ghost var b;
    r, b := SignAndBroadcast(w, cfg, d, prepared.value.0, prepared.value.1, notAfter);
    if !d.tamper {
      FavourableIff(cfg, recipient, micro, nonce, d.dryRun, a, b);
    }
    AgreedExtends(cfg, micro, nonce, a, b);
    a := a + b;
  }

  // Everything run checks before it asks anything.
  predicate Ready(cfg: Config, p: Payment, micro: nat) {
    Authorizes(cfg.b58, cfg.net, p, micro) && cfg.hasClient && Bindable(cfg, p.recipient)
  }

  // run. `micro` and `nonce` are the amount and the nonce the payment was bound
  // to, if it came to that; a is everything that was answered.
  method Run(w: World, cfg: Config, p: Payment, d: Demo)
    returns (r: Result<Outcome, Refusal>, ghost micro: nat, ghost nonce: u64, ghost a: seq<Option<int>>)
    modifies w
    ensures w.asked == old(w.asked) + a
    // An unauthorized payment touches no endpoint and no key.
    ensures a != [] || w.signed != old(w.signed) || w.sent != old(w.sent) || r.Ok? ==>
      Authorizes(cfg.b58, cfg.net, p, micro) && cfg.key.Some?
    ensures (forall m: nat :: !Authorizes(cfg.b58, cfg.net, p, m)) ==> r == Err(Violation)
    ensures forall m: nat :: Authorizes(cfg.b58, cfg.net, p, m) ==> micro == m
    // At most one signature and one broadcast, each the authorized transfer, and
    // the broadcast one signed by the payer.
    ensures cfg.key.Some? ==>
      && AtMostThisPayment(TermsFor(cfg, p.recipient, micro, nonce), old(w.signed), w.signed)
      && (w.sent == old(w.sent) || w.sent == old(w.sent) + w.signed[|old(w.signed)|..])
      && (w.sent != old(w.sent) ==> w.sent[|old(w.sent)|].sender == cfg.key.value.addr)
    // Nothing is signed but with a nonce the endpoints agreed on, on the right
    // network, with the funds there.
    ensures w.signed != old(w.signed) ==> micro < U64_LIMIT && Agreed(cfg, micro, nonce, a)
    // And, unless the plan is tampered with, with the gas, the fee cap and the tip
    // that the endpoint's answers call for.
    ensures w.signed != old(w.signed) && !d.tamper ==>
      Priced(cfg, a) && w.signed[|old(w.signed)|].tx == Planned(cfg, p.recipient, micro, nonce, a)
    // Nothing is signed at or after the expiry or in a dry run, and nothing that
    // a decoy key signed is broadcast.
    ensures w.signed != old(w.signed) ==> p.notAfter.Some? && w.signedAt < p.notAfter.value && !d.dryRun
    ensures d.decoy.Some? && cfg.key.Some? && d.decoy.value.addr != cfg.key.value.addr ==> w.sent == old(w.sent)
    // Success names the one transaction that was broadcast.
    ensures r.Ok? && !d.dryRun ==> r.value.Settled? && w.sent == old(w.sent) + [r.value.tx]
    // It goes through exactly if it was ready, in time, and every answer favourable.
    ensures !d.tamper && d.decoy.None? ==>
      (r.Ok? <==> Ready(cfg, p, micro) && w.time < p.notAfter.value
                  && Favourable(cfg, p.recipient, micro, nonce, d.dryRun, a))
    ensures w.time >= old(w.time) && old(w.readings) <= w.readings
  {
    micro, nonce, a := 0, 0, [];
    var checked := CheckPayment(cfg.b58, cfg.net, p);
    if checked.Err? { return Err(checked.error), micro, nonce, a; }
    micro := checked.value;
    if !cfg.hasClient || cfg.key.None? || cfg.net.chainID == 0 { return Err(Unavailable), micro, nonce, a; }
    if cfg.maxFeeMicro == 0 { return Err(Violation), micro, nonce, a; }
    var now := w.Now();
    if now >= p.notAfter.value { return Err(Violation), micro, nonce, a; }
    r, nonce, a := Settle(w, cfg, p.recipient, checked.value, p.notAfter.value, d);
  }
}
