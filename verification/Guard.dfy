// The pre-sign guard: what a bound payment is, which transactions it accepts,
// and the private copies that keep its verdict fixed.
module Guard {
  import opened Wrappers
  import opened Bytes
  import opened Transfer

  const TX_TYPE_DYNAMIC_FEE := 2
  const BOUND_AMOUNT_LIMIT: nat := Pow256(16)   // u128

  class AddressBox {
    var a: Address

    constructor (a: Address)
      ensures this.a == a
    {
      this.a := a;
    }
  }

  // The transaction as the guard is handed it: big integers, the target and the
  // calldata are memory the caller may still hold.
  datatype Transaction = Transaction(
    txType: nat, chainID: u64, nonce: u64, gasLimit: u64,
    maxFeePerGas: BigInt?, to: AddressBox?, value: BigInt?, data: array<byte>,
    accessListLen: nat, authorizationListLen: nat, blobHashLen: nat, signer: Address)

  // The same transaction by value.
  datatype View = View(
    txType: nat, chainID: u64, nonce: u64, gasLimit: u64,
    maxFeePerGas: Option<int>, to: Option<Address>, value: Option<int>, data: Bytes,
    accessListLen: nat, authorizationListLen: nat, blobHashLen: nat, signer: Address)

  function Footprint(t: Transaction): (f: set<object>) {
    (if t.maxFeePerGas == null then {} else {t.maxFeePerGas})
    + (if t.to == null then {} else {t.to})
    + (if t.value == null then {} else {t.value})
    + {t.data}
  }

  function ViewOf(t: Transaction): View
    reads Footprint(t)
  {
    View(t.txType, t.chainID, t.nonce, t.gasLimit,
         if t.maxFeePerGas == null then None else Some(t.maxFeePerGas.v),
         if t.to == null then None else Some(t.to.a),
         if t.value == null then None else Some(t.value.v),
         t.data[..], t.accessListLen, t.authorizationListLen, t.blobHashLen, t.signer)
  }

  datatype Binding = Binding(
    chainID: u64, asset: AccountID, payTo: AccountID, payer: AccountID,
    amount: BigInt?, nonce: u64, maxGasCost: BigInt?)

  datatype BoundPayment = BoundPayment(
    bound: bool, chainID: u64, asset: Address, payTo: Address, payer: Address,
    amount: BigInt?, nonce: u64, maxGasCost: BigInt?)

  // What was authorized, by value.
  datatype Terms = Terms(
    chainID: u64, asset: Address, payTo: Address, payer: Address, amount: nat, nonce: u64, maxGasCost: nat)

  predicate WellFormedTerms(b: Terms) {
    && b.chainID != 0
    && !IsZero(b.asset) && !IsZero(b.payTo) && !IsZero(b.payer)
    && 0 < b.amount < BOUND_AMOUNT_LIMIT
    && 0 < b.maxGasCost
  }

  function BoundFootprint(b: BoundPayment): set<object> {
    (if b.amount == null then {} else {b.amount}) + (if b.maxGasCost == null then {} else {b.maxGasCost})
  }

  // A payment NewBoundPayment returned.
  predicate IsBound(b: BoundPayment)
    reads BoundFootprint(b)
  {
    && b.bound && b.amount != null && b.maxGasCost != null
    && b.amount.v > 0 && b.maxGasCost.v > 0
    && WellFormedTerms(Terms(b.chainID, b.asset, b.payTo, b.payer, b.amount.v, b.nonce, b.maxGasCost.v))
  }

  function TermsOf(b: BoundPayment): Terms
    requires IsBound(b)
    reads BoundFootprint(b)
  {
    Terms(b.chainID, b.asset, b.payTo, b.payer, b.amount.v, b.nonce, b.maxGasCost.v)
  }

  datatype GuardError =
    | ChainIDUnset | DirtyAccountID | UnsetAddress | AmountRange | GasCostRange
    | NotBound | MissingField | UnsupportedTxType
    | AccessListPresent | AuthorizationListPresent | BlobHashesPresent
    | ChainIDMismatch | NonceMismatch | ContractCreation | AssetMismatch
    | NonZeroValue | GasCeilingExceeded | PayerMismatch
    | Calldata(c: CodecError) | DestinationMismatch | AmountMismatch
    | NotVerified | PostSignDivergence

  // ---- binding ----

  function NarrowAll(asset: AccountID, payTo: AccountID, payer: AccountID): Option<(Address, Address, Address)> {
    var a, t, p := AddressFromAccountID(asset), AddressFromAccountID(payTo), AddressFromAccountID(payer);
    if a.Some? && t.Some? && p.Some? then Some((a.value, t.value, p.value)) else None
  }

  function BindSpec(chainID: u64, asset: AccountID, payTo: AccountID, payer: AccountID,
                    amount: Option<int>, nonce: u64, maxGasCost: Option<int>): Result<Terms, GuardError>
  {
    var ids := NarrowAll(asset, payTo, payer);
    if chainID == 0 then Err(ChainIDUnset)
    else if ids.None? then Err(DirtyAccountID)
    else if IsZero(ids.value.0) || IsZero(ids.value.1) || IsZero(ids.value.2) then Err(UnsetAddress)
    else if amount.None? || amount.value <= 0 || amount.value >= BOUND_AMOUNT_LIMIT then Err(AmountRange)
    else if maxGasCost.None? || maxGasCost.value <= 0 then Err(GasCostRange)
    else Ok(Terms(chainID, ids.value.0, ids.value.1, ids.value.2, amount.value, nonce, maxGasCost.value))
  }

  // A binding is accepted exactly when it is the widening of well-formed terms.
  lemma BindIff(chainID: u64, asset: AccountID, payTo: AccountID, payer: AccountID,
                amount: Option<int>, nonce: u64, maxGasCost: Option<int>, b: Terms)
    ensures BindSpec(chainID, asset, payTo, payer, amount, nonce, maxGasCost) == Ok(b) <==>
            && WellFormedTerms(b) && b.chainID == chainID && b.nonce == nonce
            && AccountID32(b.asset) == asset && AccountID32(b.payTo) == payTo && AccountID32(b.payer) == payer
            && amount == Some(b.amount) && maxGasCost == Some(b.maxGasCost)
  {
    NarrowIffWidened(asset, b.asset);
    NarrowIffWidened(payTo, b.payTo);
    NarrowIffWidened(payer, b.payer);
  }

  function Value(x: BigInt?): Option<int>
    reads if x == null then {} else {x}
  {
    if x == null then None else Some(x.v)
  }

  method CloneBig(x: BigInt?) returns (y: BigInt?)
    ensures x == null <==> y == null
    ensures y != null ==> fresh(y) && y.v == x.v
  {
    if x == null {
      return null;
    }
    y := new BigInt(x.v);
  }

  method NewBoundPayment(b: Binding) returns (r: Result<BoundPayment, GuardError>)
    ensures var spec := BindSpec(b.chainID, b.asset, b.payTo, b.payer, Value(b.amount), b.nonce, Value(b.maxGasCost));
      && r.Err? == spec.Err? && (r.Err? ==> r.error == spec.error)
      && (r.Ok? ==> IsBound(r.value) && fresh(BoundFootprint(r.value)) && TermsOf(r.value) == spec.value)
  {
    var amount := CloneBig(b.amount);
    var maxGasCost := CloneBig(b.maxGasCost);
    if b.chainID == 0 {
      return Err(ChainIDUnset);
    }
    var asset := AddressFromAccountID(b.asset);
    if asset.None? {
      return Err(DirtyAccountID);
    }
    var payTo := AddressFromAccountID(b.payTo);
    if payTo.None? {
      return Err(DirtyAccountID);
    }
    var payer := AddressFromAccountID(b.payer);
    if payer.None? {
      return Err(DirtyAccountID);
    }
    if IsZero(asset.value) || IsZero(payTo.value) || IsZero(payer.value) {
      return Err(UnsetAddress);
    }
    if amount == null || amount.v <= 0 || amount.v >= BOUND_AMOUNT_LIMIT {
      return Err(AmountRange);
    }
    if maxGasCost == null || maxGasCost.v <= 0 {
      return Err(GasCostRange);
    }
    return Ok(BoundPayment(true, b.chainID, asset.value, payTo.value, payer.value, amount, b.nonce, maxGasCost));
  }

  // ---- verification ----

  // The twelve assertions in order; None accepts.
  function Check(t: View, b: Terms): Option<GuardError> {
    if t.maxFeePerGas.None? || t.value.None? then Some(MissingField)
    else if t.txType != TX_TYPE_DYNAMIC_FEE then Some(UnsupportedTxType)
    else if t.accessListLen != 0 then Some(AccessListPresent)
    else if t.authorizationListLen != 0 then Some(AuthorizationListPresent)
    else if t.blobHashLen != 0 then Some(BlobHashesPresent)
    else if t.chainID != b.chainID then Some(ChainIDMismatch)
    else if t.nonce != b.nonce then Some(NonceMismatch)
    else if t.to.None? then Some(ContractCreation)
    else if t.to.value != b.asset then Some(AssetMismatch)
    else if t.value.value != 0 then Some(NonZeroValue)
    else if t.maxFeePerGas.value < 0 then Some(GasCeilingExceeded)
    else if t.gasLimit * t.maxFeePerGas.value > b.maxGasCost then Some(GasCeilingExceeded)
    else if IsZero(t.signer) then Some(UnsetAddress)
    else if t.signer != b.payer then Some(PayerMismatch)
    else if |t.data| != CALLDATA_LEN then Some(Calldata(CalldataLength))
    else
      match DecodeSpec(t.data)
      case Err(e) => Some(Calldata(e))
      case Ok(d) =>
        if d.to != b.payTo then Some(DestinationMismatch)
        else if d.amount != b.amount then Some(AmountMismatch)
        else None
  }

  // The one transaction a payment may become, up to its gas limit and fee cap.
  function Expected(b: Terms, gasLimit: u64, maxFeePerGas: nat): View {
    View(TX_TYPE_DYNAMIC_FEE, b.chainID, b.nonce, gasLimit, Some(maxFeePerGas), Some(b.asset), Some(0),
         TransferBytes(b.payTo, b.amount), 0, 0, 0, b.payer)
  }

  predicate IsExpected(t: View, b: Terms) {
    && t.maxFeePerGas.Some? && t.maxFeePerGas.value >= 0
    && t == Expected(b, t.gasLimit, t.maxFeePerGas.value)
    && t.gasLimit * t.maxFeePerGas.value <= b.maxGasCost
  }

  lemma PowIsMonotone(a: nat, b: nat)
    requires a <= b
    ensures Pow256(a) <= Pow256(b)
  {
  }

  lemma AmountsFitAWord(amount: nat)
    requires amount < BOUND_AMOUNT_LIMIT
    ensures FitsWord(amount)
  {
    PowIsMonotone(16, 32);
  }

  lemma AcceptsExpected(t: View, b: Terms)
    requires WellFormedTerms(b) && IsExpected(t, b)
    ensures Check(t, b).None?
  {
    DecodeIffEncoded(t.data, b.payTo, b.amount);
    AmountsFitAWord(b.amount);
  }

  lemma AcceptedDecodes(t: View, b: Terms)
    requires Check(t, b).None?
    ensures DecodeSpec(t.data) == Ok(Decoded(b.payTo, b.amount))
    ensures t.maxFeePerGas.Some? && t.maxFeePerGas.value >= 0
    ensures t == Expected(b, t.gasLimit, t.maxFeePerGas.value).(data := t.data)
  {
  }

  lemma AcceptsOnlyExpected(t: View, b: Terms)
    requires Check(t, b).None?
    ensures IsExpected(t, b)
  {
    AcceptedDecodes(t, b);
    assert t.data == TransferBytes(b.payTo, b.amount) by {
      DecodeIffEncoded(t.data, b.payTo, b.amount);
    }
  }

  lemma AcceptsIffExpected(t: View, b: Terms)
    requires WellFormedTerms(b)
    ensures Check(t, b).None? <==> IsExpected(t, b)
  {
    if IsExpected(t, b) {
      AcceptsExpected(t, b);
    }
    if Check(t, b).None? {
      AcceptsOnlyExpected(t, b);
    }
  }

  // Two transactions accepted for one payment differ only in gas limit and fee cap.
  lemma AcceptedDifferOnlyInGas(t: View, u: View, b: Terms)
    requires WellFormedTerms(b) && Check(t, b).None? && Check(u, b).None?
    ensures t == u.(gasLimit := t.gasLimit, maxFeePerGas := t.maxFeePerGas)
  {
    AcceptsIffExpected(t, b);
    AcceptsIffExpected(u, b);
  }

  // What callers can get at: copies only.
  method AmountOf(b: BoundPayment) returns (x: BigInt)
    requires IsBound(b)
    ensures fresh(x) && x.v == TermsOf(b).amount
  {
    x := new BigInt(b.amount.v);
  }

  method MaxGasCostOf(b: BoundPayment) returns (x: BigInt)
    requires IsBound(b)
    ensures fresh(x) && x.v == TermsOf(b).maxGasCost
  {
    x := new BigInt(b.maxGasCost.v);
  }

  datatype Verified = Verified(ok: bool, tx: Transaction, b: BoundPayment)

  // A verdict Verify returned: the private copy passes the check it was put to.
  predicate IsVerified(v: Verified)
    reads Footprint(v.tx), BoundFootprint(v.b)
  {
    v.ok && IsBound(v.b) && Check(ViewOf(v.tx), TermsOf(v.b)).None?
  }

  method CloneBytes(a: array<byte>) returns (b: array<byte>)
    ensures fresh(b) && b[..] == a[..]
  {
    b := new byte[a.Length](i requires 0 <= i < a.Length reads a => a[i]);
  }

  method DeepCopy(t: Transaction) returns (c: Transaction)
    ensures fresh(Footprint(c)) && ViewOf(c) == ViewOf(t)
  {
    var data := CloneBytes(t.data);
    var fee := CloneBig(t.maxFeePerGas);
    var value := CloneBig(t.value);
    var to := t.to;
    if to != null {
      to := new AddressBox(to.a);
    }
    c := t.(data := data, maxFeePerGas := fee, value := value, to := to);
  }

  method Verify(t: Transaction, b: BoundPayment) returns (r: Result<Verified, GuardError>)
    requires b.bound ==> IsBound(b)
    ensures !b.bound ==> r == Err(NotBound)
    ensures b.bound ==>
      var e := Check(ViewOf(t), TermsOf(b));
      && r.Ok? == e.None?
      && (r.Err? ==> e == Some(r.error))
    ensures r.Ok? ==>
      && IsVerified(r.value) && r.value.b == b
      && fresh(Footprint(r.value.tx)) && ViewOf(r.value.tx) == ViewOf(t)
  {
    if !b.bound {
      return Err(NotBound);
    }
    var c := DeepCopy(t);
    if c.maxFeePerGas == null || c.value == null { return Err(MissingField); }
    if c.txType != TX_TYPE_DYNAMIC_FEE { return Err(UnsupportedTxType); }
    if c.accessListLen != 0 { return Err(AccessListPresent); }
    if c.authorizationListLen != 0 { return Err(AuthorizationListPresent); }
    if c.blobHashLen != 0 { return Err(BlobHashesPresent); }
    if c.chainID != b.chainID { return Err(ChainIDMismatch); }
    if c.nonce != b.nonce { return Err(NonceMismatch); }
    if c.to == null { return Err(ContractCreation); }
    if c.to.a != b.asset { return Err(AssetMismatch); }
    if c.value.v != 0 { return Err(NonZeroValue); }
    if c.maxFeePerGas.v < 0 { return Err(GasCeilingExceeded); }
    var cost := c.gasLimit * c.maxFeePerGas.v;
    if cost > b.maxGasCost.v { return Err(GasCeilingExceeded); }
    if IsZero(c.signer) { return Err(UnsetAddress); }
    if c.signer != b.payer { return Err(PayerMismatch); }
    if c.data.Length != CALLDATA_LEN { return Err(Calldata(CalldataLength)); }
    var dec := DecodeTransfer(c.data);
    if dec.Err? { return Err(Calldata(dec.error)); }
    if dec.value.to != b.payTo { return Err(DestinationMismatch); }
    if dec.value.amount != b.amount.v { return Err(AmountMismatch); }
    return Ok(Verified(true, c, b));
  }

  // Field by field, against the private copy; None passes. What passes would
  // itself be accepted by Verify.
  method AssertSame(v: Verified, t: Transaction) returns (e: Option<GuardError>)
    requires v.ok ==> IsVerified(v)
    ensures !v.ok ==> e == Some(NotVerified)
    ensures v.ok ==> e == if ViewOf(t) == ViewOf(v.tx) then None else Some(PostSignDivergence)
    ensures e.None? ==> Check(ViewOf(t), TermsOf(v.b)).None?
  {
    if !v.ok {
      return Some(NotVerified);
    }
    if t.maxFeePerGas == null || t.value == null {
      return Some(PostSignDivergence);
    }
    var w := v.tx;
    if || t.txType != w.txType || t.chainID != w.chainID || t.nonce != w.nonce || t.gasLimit != w.gasLimit
       || t.maxFeePerGas.v != w.maxFeePerGas.v
       || t.to == null || w.to == null || t.to.a != w.to.a
       || t.value.v != w.value.v || t.data[..] != w.data[..]
       || t.accessListLen != w.accessListLen || t.authorizationListLen != w.authorizationListLen
       || t.blobHashLen != w.blobHashLen || t.signer != w.signer
    {
      return Some(PostSignDivergence);
    }
    return None;
  }

  // A verdict depends on its private copies and the bound payment alone.
  twostate lemma VerdictIsDetached(v: Verified)
    requires old(IsVerified(v)) && unchanged(Footprint(v.tx)) && unchanged(BoundFootprint(v.b))
    ensures IsVerified(v) && ViewOf(v.tx) == old(ViewOf(v.tx)) && TermsOf(v.b) == old(TermsOf(v.b))
  {
  }

  // Verified.Transaction.
  method TransactionOf(v: Verified) returns (t: Transaction)
    ensures fresh(Footprint(t)) && ViewOf(t) == ViewOf(v.tx)
  {
    t := DeepCopy(v.tx);
  }

  // All that the accessors of a verdict and of its payment hand out.
  method EverythingGiven(v: Verified) returns (ghost given: set<object>)
    requires IsVerified(v)
    ensures fresh(given)
  {
    var amount := AmountOf(v.b);
    var ceiling := MaxGasCostOf(v.b);
    var copy := TransactionOf(v);
    given := {amount, ceiling} + Footprint(copy);
  }

  // Whatever is later done to any object that existed when the payment was
  // bound, or that an accessor returned, the bound terms are the ones validated.
  method BindThenMutate(b: Binding, held: set<object>) returns (r: Result<BoundPayment, GuardError>)
    modifies held
    ensures r.Ok? ==>
      && IsBound(r.value) && fresh(BoundFootprint(r.value))
      && Ok(TermsOf(r.value)) ==
         old(BindSpec(b.chainID, b.asset, b.payTo, b.payer, Value(b.amount), b.nonce, Value(b.maxGasCost)))
  {
    r := NewBoundPayment(b);
    if r.Ok? {
      var amount := AmountOf(r.value);
      var ceiling := MaxGasCostOf(r.value);
      modify held, amount, ceiling;
    }
  }

  // Whatever is later done to any object the caller could hold, which excludes
  // the bound payment's private integers, since the accessors return copies, the
  // verdict stays and is about the transaction as it was handed over.
  method VerifyThenMutate(t: Transaction, b: BoundPayment, held: set<object>) returns (r: Result<Verified, GuardError>)
    requires IsBound(b) && held !! BoundFootprint(b)
    modifies held
    ensures r.Ok? ==> IsVerified(r.value) && ViewOf(r.value.tx) == old(ViewOf(t))
    ensures r.Ok? ==> r.value.b == b && TermsOf(b) == old(TermsOf(b))
  {
    r := Verify(t, b);
    if r.Ok? {
      ghost var given := EverythingGiven(r.value);
      label Verdict:
      modify held, given;
      VerdictIsDetached@Verdict(r.value);
    }
  }

  // From binding to verdict, with a caller that keeps everything it was ever
  // given and changes any of it in between and afterwards.
  method BindMutateVerifyMutate(b: Binding, t: Transaction, held: set<object>) returns (r: Result<Verified, GuardError>)
    modifies held
    ensures r.Ok? ==>
      && IsVerified(r.value)
      && Ok(TermsOf(r.value.b)) ==
         old(BindSpec(b.chainID, b.asset, b.payTo, b.payer, Value(b.amount), b.nonce, Value(b.maxGasCost)))
  {
    var bound := BindThenMutate(b, held);
    if bound.Err? {
      return Err(bound.error);
    }
    r := VerifyThenMutate(t, bound.value, held);
  }
}
