// How much can leave the payer under one capability: the count over runs, the
// amount the policy allowed, and the fee ceiling, together.
module Funds {
  import opened Bytes
  import opened Transfer
  import opened Native
  import opened Machine
  import opened CountProofs
  import opened RunTheorems
  import Guard
  import Plans
  import Settle

  // ---- every settle call is for an amount the policy allowed ----

  ghost predicate AmountInv(env: Env, s: State) {
    && (forall c <- s.settled :: c.micro <= env.maxMicro(c.cfg.cap))
    && forall pid <- s.procs ::
         s.procs[pid].job.Allowed? ==> s.procs[pid].job.micro <= env.maxMicro(s.procs[pid].cfg.cap)
  }

  lemma LocalStepKeepsAmount(env: Env, p: Proc, e: Effect)
    requires LocalStep(env, p, e).Some? && (p.job.Allowed? ==> p.job.micro <= env.maxMicro(p.cfg.cap))
    ensures var p' := LocalStep(env, p, e).value;
      && (p'.job.Allowed? ==> p'.job.micro <= env.maxMicro(p'.cfg.cap))
      && (e.Settle? ==> e.micro <= env.maxMicro(p.cfg.cap))
  {
  }

  lemma EffectKeepsSettled(s: State, pid: Pid, cfg: Config, e: Effect, s': State)
    requires Effected(s, pid, cfg, e, s')
    ensures s'.settled == if e.Settle? then s.settled + [Settled(cfg, e.micro)] else s.settled
  {
  }

  lemma ActKeepsAmounts(env: Env, s: State, pid: Pid, e: Effect, p': Proc, s': State)
    requires AmountInv(env, s) && pid in s.procs
    requires s'.procs == s.procs[pid := p'] && p'.cfg == s.procs[pid].cfg
    requires p'.job.Allowed? ==> p'.job.micro <= env.maxMicro(p'.cfg.cap)
    requires e.Settle? ==> e.micro <= env.maxMicro(p'.cfg.cap)
    requires s'.settled == if e.Settle? then s.settled + [Settled(p'.cfg, e.micro)] else s.settled
    ensures AmountInv(env, s')
  {
  }

  lemma NextKeepsAmounts(env: Env, s: State, pid: Pid, e: Effect, s': State)
    requires NextBy(env, s, Act(pid, e), s') && AmountInv(env, s)
    ensures AmountInv(env, s')
  {
    LocalStepKeepsAmount(env, s.procs[pid], e);
    LocalStepKeepsConfig(env, s.procs[pid], e);
    EffectKeepsSettled(s, pid, s.procs[pid].cfg, e, s');
    ActKeepsAmounts(env, s, pid, e, LocalStep(env, s.procs[pid], e).value, s');
  }

  lemma OtherStepsKeepAmounts(env: Env, s: State, step: Step, s': State)
    requires NextBy(env, s, step, s') && !step.Act? && AmountInv(env, s)
    ensures AmountInv(env, s')
  {
  }

  lemma RunKeepsAmounts(env: Env, run: seq<State>, i: nat)
    requires IsRun(env, run) && i < |run|
    ensures AmountInv(env, run[i])
  {
    var inv := (s: State) => AmountInv(env, s);
    forall s, step, s' | inv(s) && NextBy(env, s, step, s')
      ensures inv(s')
    {
      if step.Act? {
        NextKeepsAmounts(env, s, step.pid, step.e, s');
      } else {
        OtherStepsKeepAmounts(env, s, step, s');
      }
    }
    HoldsAlongRun(env, run, i, inv);
  }

  // ---- what one broadcast can cost ----

  function TransferAmount(data: Bytes): nat {
    match DecodeSpec(data)
    case Ok(d) => d.amount
    case Err(_) => 0
  }

  // Native units: the transaction's own value, the transfer in its calldata, and
  // the gas actually paid.
  function Outflow(tx: Plans.Tx, gasPaid: nat): int {
    tx.value + TransferAmount(tx.data) * NATIVE_SCALE + gasPaid
  }

  lemma OutflowIsBounded(b: Guard.Terms, tx: Plans.Tx, gasPaid: nat)
    requires Settle.PaysExactly(b, tx) && FitsWord(b.amount)
    requires gasPaid <= tx.gas * tx.feeCap
    ensures Outflow(tx, gasPaid) <= b.amount * NATIVE_SCALE + b.maxGasCost
  {
    DecodeIffEncoded(tx.data, b.payTo, b.amount);
  }

  lemma PaymentIsBounded(cfg: Settle.Config, recipient: Address, micro: u64, nonce: u64, tx: Plans.Tx, gasPaid: nat)
    requires cfg.key.Some? && Settle.PaysExactly(Settle.TermsFor(cfg, recipient, micro, nonce), tx)
    requires gasPaid <= tx.gas * tx.feeCap
    ensures Outflow(tx, gasPaid) <= (micro + cfg.maxFeeMicro) * NATIVE_SCALE
  {
    Pow256IsFixed();
    OutflowIsBounded(Settle.TermsFor(cfg, recipient, micro, nonce), tx, gasPaid);
  }

  // ---- what one gateway's world has sent ----

  predicate GasWithin(x: Plans.Signed, gasPaid: Plans.Signed -> nat) {
    x.tx.feeCap >= 0 ==> gasPaid(x) <= x.tx.gas * x.tx.feeCap
  }

  function SentOutflow(sent: seq<Plans.Signed>, gasPaid: Plans.Signed -> nat): int {
    if sent == [] then 0
    else
      var x := sent[|sent| - 1];
      SentOutflow(sent[..|sent| - 1], gasPaid) + Outflow(x.tx, gasPaid(x))
  }

  lemma {:induction false} SentIsBounded(sent: seq<Plans.Signed>, gasPaid: Plans.Signed -> nat, unit: nat)
    requires forall k: nat :: k < |sent| ==> Outflow(sent[k].tx, gasPaid(sent[k])) <= unit
    ensures SentOutflow(sent, gasPaid) <= |sent| * unit
  {
    if sent != [] {
      var front := sent[..|sent| - 1];
      SentIsBounded(front, gasPaid, unit);
      assert |sent| * unit == |front| * unit + unit;
    }
  }

  // ---- what the settle calls of a run have sent ----

  // One call of Settle.Run: what it was configured with, the nonce it bound, what
  // had been signed before and after, and the gas its transaction was charged.
  datatype Settlement = Settlement(
    cfg: Settle.Config, recipient: Address, nonce: u64, was: seq<Plans.Signed>, now: seq<Plans.Signed>, gasPaid: nat)

  // The settler was called for this settle call of a run, with the gateway's fee
  // ceiling, and did what Settle.Run promises.
  predicate Settles(x: Settlement, c: Settled) {
    && x.cfg.key.Some? && c.micro < U64_LIMIT && c.cfg.maxFee == x.cfg.maxFeeMicro
    && Settle.AtMostThisPayment(Settle.TermsFor(x.cfg, x.recipient, c.micro, x.nonce), x.was, x.now)
    && (|x.was| < |x.now| ==> x.gasPaid <= x.now[|x.was|].tx.gas * x.now[|x.was|].tx.feeCap)
  }

  // Nothing if nothing was signed.
  function Cost(x: Settlement): int {
    if |x.was| < |x.now| then Outflow(x.now[|x.was|].tx, x.gasPaid) else 0
  }

  function Total(settled: seq<Settled>, calls: seq<Settlement>, a: Anchor): int
    requires |settled| == |calls|
  {
    if settled == [] then 0
    else
      var k := |settled| - 1;
      Total(settled[..k], calls[..k], a) + (if Matches(settled[k].cfg, a) then Cost(calls[k]) else 0)
  }

  lemma CallCost(env: Env, c: Settled, x: Settlement, fee: nat)
    requires Settles(x, c) && c.micro <= env.maxMicro(c.cfg.cap) && c.cfg.maxFee <= fee
    ensures Cost(x) <= (env.maxMicro(c.cfg.cap) + fee) * NATIVE_SCALE
  {
    if |x.was| < |x.now| {
      PaymentIsBounded(x.cfg, x.recipient, c.micro, x.nonce, x.now[|x.was|].tx, x.gasPaid);
    }
  }

  lemma OneMoreTimes(n: nat, unit: nat)
    ensures (n + 1) * unit == n * unit + unit
  {
  }

  lemma {:induction false} TotalIsBounded(env: Env, settled: seq<Settled>, calls: seq<Settlement>, a: Anchor, fee: nat)
    requires |settled| == |calls|
    requires forall k :: 0 <= k < |settled| ==> Settles(calls[k], settled[k])
    requires forall k :: 0 <= k < |settled| ==> settled[k].micro <= env.maxMicro(settled[k].cfg.cap)
    requires forall k :: 0 <= k < |settled| ==> Matches(settled[k].cfg, a) ==> settled[k].cfg.maxFee <= fee
    ensures Total(settled, calls, a) <= CountSettled(settled, a) * ((env.maxMicro(a.cap) + fee) * NATIVE_SCALE)
  {
    if settled == [] {
    } else {
      var k := |settled| - 1;
      TotalIsBounded(env, settled[..k], calls[..k], a, fee);
      OneMoreTimes(CountSettled(settled[..k], a), (env.maxMicro(a.cap) + fee) * NATIVE_SCALE);
      if Matches(settled[k].cfg, a) {
        CallCost(env, settled[k], calls[k], fee);
      }
    }
  }

  lemma TimesGrows(n: nat, m: nat, unit: nat)
    requires n <= m
    ensures n * unit <= m * unit
  {
    assert m * unit == n * unit + (m - n) * unit;
  }

  // Over any run, what the settler's calls sign under one capability sends out, in
  // native units, at most MaxPayments x (MaxMicro + MaxFeeMicro) x 10^12.
  lemma TotalFundsBounded(env: Env, run: seq<State>, i: nat, a: Anchor, calls: seq<Settlement>, fee: nat)
    requires IsRun(env, run) && i < |run| && !run[i].outside
    requires |calls| == |run[i].settled|
    requires forall k :: 0 <= k < |calls| ==> Settles(calls[k], run[i].settled[k])
    requires forall k :: 0 <= k < |calls| ==>
               Matches(run[i].settled[k].cfg, a) ==> run[i].settled[k].cfg.maxFee <= fee
    ensures Total(run[i].settled, calls, a) <= env.maxPayments(a.cap) * ((env.maxMicro(a.cap) + fee) * NATIVE_SCALE)
  {
    RunKeepsAmounts(env, run, i);
    SettleCallsBounded(env, run, i, a);
    TotalIsBounded(env, run[i].settled, calls, a, fee);
    TimesGrows(CountSettled(run[i].settled, a), env.maxPayments(a.cap), (env.maxMicro(a.cap) + fee) * NATIVE_SCALE);
  }
}
