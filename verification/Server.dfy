// One tool call: decide, count, persist, and only then settle.
module Servers {
  import opened Wrappers
  import opened Bytes
  import opened Machine
  import opened Deeds
  import opened Gateway
  import opened Plans
  import opened Checkpointers
  import Settle
  import Native
  import Funds
  import Atomic

  // The approved capability, and what the settler is configured with.
  datatype Capability = Capability(
    recipient: Address, resource: string, maxMicro: u64, maxPayments: nat, expiresAt: int)

  // A call whose tool name, amount and recipient parsed, or did not.
  datatype ToolCall = ToolCall(rightTool: bool, amount: Option<u64>, to: Option<Address>, resource: string)

  // What a line of input asks for; everything but a tool call only reads.
  datatype Line = Other | Call(call: ToolCall)

  datatype Reply = Malformed | NotPersisted | Refused | Evaluated | SettleFailed | Done

  // The most that one payment may cost, in native units.
  function UnitCost(cap: Capability, settler: Settle.Config): nat {
    (cap.maxMicro + settler.maxFeeMicro) * Native.NATIVE_SCALE
  }

  // A history that grew by n entries at the most.
  predicate Extends(was: seq<Signed>, now: seq<Signed>, n: int) {
    was <= now && |now| - |was| <= n
  }

  // The whole log, if it was saved, has been handed to the endpoint, or was
  // recorded before, or an earlier head that was handed to it is in the way.
  ghost predicate Announced(st: LogState, before: nat)
    reads st, st.os
  {
    var n, heads := |st.log|, st.os.proc.heads;
    || n == 0 || st.saved != n || n == before
    || Head(n, st.os.env.rootOf(st.log)) in heads || exists h <- heads :: h.n < n
  }

  class Server {
    const st: LogState
    const cap: Capability
    const settler: Settle.Config
    const w: World
    const cp: Checkpointer
    var entered: bool

    constructor (st: LogState, cap: Capability, settler: Settle.Config, w: World, cp: Checkpointer)
      requires cp.st == st && cp.w == w
      ensures this.st == st && this.cap == cap && this.settler == settler && this.w == w && this.cp == cp && !entered
    {
      this.st, this.cap, this.settler, this.w, this.cp, entered := st, cap, settler, w, cp, false;
    }

    ghost predicate Valid()
      reads this, st, st.os
    {
      && cp.st == st && cp.w == w
      && st.Mirrors() && st.os.proc.phase.Running? && st.os.proc.job.Idle?
      && st.saved <= |st.log|
      && st.os.env.maxPayments(st.cfg.cap) == cap.maxPayments
      && st.os.env.maxMicro(st.cfg.cap) == cap.maxMicro
      && settler.maxFeeMicro == st.cfg.maxFee
    }

    // The call names the approved recipient and asset, in transport form, and the
    // approved resource.
    predicate NamesApproved(payTo: string, asset: string, resource: string) {
      && payTo == Settle.Transport(settler.b58, cap.recipient)
      && asset == Settle.Transport(settler.b58, settler.net.usdc)
      && resource == cap.resource
    }

    // A transaction that pays the approved recipient an amount within the ceiling.
    predicate PaysApprovedAs(x: Signed, micro: u64, nonce: u64) {
      && settler.key.Some? && micro <= cap.maxMicro
      && Settle.PaysExactly(Settle.TermsFor(settler, cap.recipient, micro, nonce), x.tx)
    }

    ghost predicate PaysApproved(x: Signed) {
      exists micro: u64, nonce: u64 :: PaysApprovedAs(x, micro, nonce)
    }

    // A history that grew by payments the capability approves, at most n of them.
    ghost predicate Grew(was: seq<Signed>, now: seq<Signed>, n: int) {
      && Extends(was, now, n)
      && forall k {:trigger PaysApproved(now[k])} :: |was| <= k < |now| ==> PaysApproved(now[k])
    }

    lemma GrewTwice(a: seq<Signed>, b: seq<Signed>, c: seq<Signed>, m: int, n: int)
      requires Grew(a, b, m) && Grew(b, c, n)
      ensures Grew(a, c, m + n)
    {
    }

    lemma OnePaymentGrew(was: seq<Signed>, now: seq<Signed>, micro: u64, nonce: u64)
      requires settler.key.Some? && micro <= cap.maxMicro
      requires Settle.AtMostThisPayment(Settle.TermsFor(settler, cap.recipient, micro, nonce), was, now)
      ensures Grew(was, now, 1)
    {
      if now != was {
        assert PaysApprovedAs(now[|was|], micro, nonce);
      }
    }

    // countingPolicy.Verify, around the exact-payment policy.
    method PolicyVerify(payTo: string, asset: string, resource: string, micro: u64) returns (ok: bool)
      ensures ok <==> st.used < cap.maxPayments && NamesApproved(payTo, asset, resource) && micro <= cap.maxMicro
    {
      if st.used >= cap.maxPayments {
        return false;
      }
      ok := NamesApproved(payTo, asset, resource) && micro <= cap.maxMicro;
    }

    // Decide and count. An ALLOW is counted before anything else can fail.
    method Decide(payTo: string, asset: string, resource: string, micro: u64) returns (allow: bool)
      requires Valid() && micro >= 1
      modifies this`entered, st`log, st`used, st.os`proc, st.os`deeds, st.os`policy
      ensures entered
      // The enforcement point is given the policy's answer.
      ensures st.os.policy ==
        Some(old(st.used) < cap.maxPayments && NamesApproved(payTo, asset, resource) && micro <= cap.maxMicro)
      ensures allow ==> old(st.used) < cap.maxPayments && NamesApproved(payTo, asset, resource) && micro <= cap.maxMicro
      ensures st.used == old(st.used) + (if allow then 1 else 0)
      ensures old(st.log) <= st.log && (allow ==> |st.log| == |old(st.log)| + 1 && st.log[|old(st.log)|].allow)
      ensures st.Mirrors() && st.saved <= |st.log| && st.os.proc.phase.CheckLog?
      ensures st.os.proc.job == (if allow then Allowed(micro) else Machine.Refused)
      ensures st.os.proc.heads == old(st.os.proc.heads) && PlainSince(old(st.os.deeds), st.os.deeds)
    {
      var policyOk := PolicyVerify(payTo, asset, resource, micro);
      var added;
      allow, added := st.os.Authorize(st.cfg.cap, policyOk, micro);
      st.log := st.log + added;
      if allow {
        st.used := st.used + 1;
      }
      entered := true;
    }

    // The settler's own checks on this call would pass.
    predicate Settleable(payTo: string, asset: string) {
      && payTo == Settle.Transport(settler.b58, cap.recipient)
      && asset == Settle.Transport(settler.b58, settler.net.usdc)
      && settler.hasClient && Settle.Bindable(settler, cap.recipient)
    }

    // Hand the authorized call, and only it, to the settler; a is what was answered.
    method SettleCall(payTo: string, asset: string, micro: u64, expiry: int)
      returns (reply: Reply, ghost nonce: u64, ghost a: seq<Option<int>>)
      requires micro >= 1
      modifies w
      ensures reply in {SettleFailed, Done} && w.time >= old(w.time) && old(w.readings) <= w.readings
      ensures w.asked == old(w.asked) + a
      ensures reply.Done? <==>
        && Settleable(payTo, asset) && w.time < expiry
        && Settle.Favourable(settler, cap.recipient, micro, nonce, st.cfg.mode.DryRun?, a)
      ensures reply.Done? && !st.cfg.mode.DryRun? ==> |w.sent| == |old(w.sent)| + 1
      ensures w.signed != old(w.signed) || w.sent != old(w.sent) ==> settler.key.Some?
      ensures w.signed != old(w.signed) ==> w.signedAt < expiry
      ensures settler.key.Some? ==>
        && Settle.AtMostThisPayment(Settle.TermsFor(settler, cap.recipient, micro, nonce), old(w.signed), w.signed)
        && (w.sent == old(w.sent) || w.sent == old(w.sent) + w.signed[|old(w.signed)|..])
      ensures st.cfg.mode.DryRun? ==> w.signed == old(w.signed) && w.sent == old(w.sent)
    {
      var p := Settle.Payment("entry", cap.recipient, payTo, asset, Atomic.Decimal(micro), Some(expiry));
      ghost var bound;
      var r;
      r, bound, nonce, a := Settle.Run(w, settler, p, Settle.Demo(st.cfg.mode.DryRun?, false, None));
      if Settle.Authorizes(settler.b58, settler.net, p, bound) {
        Atomic.DecimalIsInjective(micro, bound);
      }
      assert Settleable(payTo, asset) ==> Settle.Authorizes(settler.b58, settler.net, p, micro);
      reply := if r.Ok? then Done else SettleFailed;
    }

    // Persist the decision, and act on it only then. Which reply it is follows
    // from whether the save went through, the decision, the mode and the settler.
    method PersistAndSettle(allow: bool, payTo: string, asset: string, micro: u64, expiry: int)
      returns (reply: Reply, ghost nonce: u64, ghost a: seq<Option<int>>)
      requires cp.st == st && cp.w == w && micro >= 1
      requires st.Mirrors() && st.saved <= |st.log| && st.os.proc.phase.CheckLog?
      requires st.os.proc.job == (if allow then Allowed(micro) else Machine.Refused)
      modifies st`saved, st.os`proc, st.os`deeds, w
      ensures st.Mirrors() && st.saved <= |st.log| && st.os.proc.phase.Running? && st.os.proc.job.Idle?
      ensures st.os.proc.heads == old(st.os.proc.heads) && old(st.saved) <= st.saved
      ensures w.time >= old(w.time) && old(w.readings) <= w.readings && w.asked == old(w.asked) + a
      ensures PlainSince(old(st.os.deeds), st.os.deeds) && (!reply.NotPersisted? ==> st.saved == |st.log|)
      ensures var saved := old(st.os.deeds) + SaveDeeds(st.cfg, st.lock, st.capLock, st.log, st.used);
        match reply
        case NotPersisted => st.os.deeds != saved && |st.os.deeds| <= |saved|
        case Refused => st.os.deeds == saved && !allow
        case Evaluated => st.os.deeds == saved && allow && st.cfg.mode.Evaluate?
        case Malformed => false
        case _ => st.os.deeds == saved + [Did(Effect.Settle(micro))] && allow && !st.cfg.mode.Evaluate?
      ensures reply in {SettleFailed, Done} ==>
        (reply.Done? <==>
           && Settleable(payTo, asset) && w.time < expiry
           && Settle.Favourable(settler, cap.recipient, micro, nonce, st.cfg.mode.DryRun?, a))
      ensures reply.Done? && st.cfg.mode.Live? ==> |w.sent| == |old(w.sent)| + 1
      ensures w.signed != old(w.signed) || w.sent != old(w.sent) ==>
        && reply in {SettleFailed, Done}
        && allow && st.saved == |st.log| && settler.key.Some? && st.cfg.mode.Live?
      ensures w.signed != old(w.signed) ==> w.signedAt < expiry
      ensures settler.key.Some? ==>
        && Settle.AtMostThisPayment(Settle.TermsFor(settler, cap.recipient, micro, nonce), old(w.signed), w.signed)
        && (w.sent == old(w.sent) || w.sent == old(w.sent) + w.signed[|old(w.signed)|..])
    {
      nonce, a := 0, [];
      var ok := st.Save();
      if !ok {
        return NotPersisted, nonce, a;
      }
      if !allow {
        return Reply.Refused, nonce, a;
      }
      if st.cfg.mode.Evaluate? {
        return Evaluated, nonce, a;
      }
      st.os.BeginSettle(micro);
      reply, nonce, a := SettleCall(payTo, asset, micro, expiry);
    }

    function UsdcTransport(): string {
      Settle.Transport(settler.b58, settler.net.usdc)
    }

    // The earlier of a minute from now and the capability's expiry.
    function Expiry(now: int): int {
      if cap.expiresAt < now + 60 then cap.expiresAt else now + 60
    }

    predicate WellFormed(c: ToolCall) {
      c.rightTool && c.amount.Some? && c.to.Some? && c.amount.value != 0
    }

    // A call that is well formed, from the clock reading its expiry counts from.
    method Attempt(to: Address, micro: u64, resource: string)
      returns (reply: Reply, ghost nonce: u64, ghost a: seq<Option<int>>)
      requires Valid() && micro >= 1
      modifies this`entered, st`log, st`used, st`saved, st.os`proc, st.os`deeds, st.os`policy, w
      ensures Valid() && st.os.proc.heads == old(st.os.proc.heads) && PlainSince(old(st.os.deeds), st.os.deeds)
      ensures old(st.log) <= st.log && old(st.saved) <= st.saved && w.time >= old(w.time)
      ensures old(st.used) <= st.used <= Max(old(st.used), cap.maxPayments)
      ensures entered && !reply.Malformed?
      ensures |old(w.readings)| < |w.readings| && w.asked == old(w.asked) + a
      ensures st.used != old(st.used) ==>
        micro <= cap.maxMicro && NamesApproved(Settle.Transport(settler.b58, to), UsdcTransport(), resource)
      ensures reply in {Evaluated, SettleFailed, Done} ==> st.used == old(st.used) + 1 && st.saved == |st.log|
      ensures reply.Refused? ==> st.used == old(st.used) && st.saved == |st.log|
      ensures reply in {SettleFailed, Done} ==>
        (reply.Done? <==>
           && settler.hasClient && Settle.Bindable(settler, cap.recipient)
           && w.time < Expiry(w.readings[|old(w.readings)|])
           && Settle.Favourable(settler, cap.recipient, micro, nonce, st.cfg.mode.DryRun?, a))
      ensures reply.Done? && st.cfg.mode.Live? ==> |w.sent| == |old(w.sent)| + 1
      ensures reply.Evaluated? ==> st.cfg.mode.Evaluate?
      ensures w.signed != old(w.signed) || w.sent != old(w.sent) ==>
        && reply in {SettleFailed, Done} && st.cfg.mode.Live?
        && st.used == old(st.used) + 1
        && st.saved == |st.log| == |old(st.log)| + 1 && st.log[|old(st.log)|].allow
        && settler.key.Some?
      ensures w.signed != old(w.signed) ==> w.signedAt < Expiry(w.readings[|old(w.readings)|])
      ensures settler.key.Some? ==>
        && Settle.AtMostThisPayment(Settle.TermsFor(settler, cap.recipient, micro, nonce), old(w.signed), w.signed)
        && (w.sent == old(w.sent) || w.sent == old(w.sent) + w.signed[|old(w.signed)|..])
    {
      var now := w.Now();
      var payTo := Settle.Transport(settler.b58, to);
      var allow := Decide(payTo, UsdcTransport(), resource, micro);
      reply, nonce, a := PersistAndSettle(allow, payTo, UsdcTransport(), micro, Expiry(now));
    }

    predicate IsCall(l: Line) {
      l.Call? && WellFormed(l.call)
    }

    function CallsIn(lines: seq<Line>): nat {
      if lines == [] then 0
      else CallsIn(lines[..|lines| - 1]) + (if IsCall(lines[|lines| - 1]) then 1 else 0)
    }

    lemma OneMoreLine(lines: seq<Line>, i: nat)
      requires i < |lines|
      ensures CallsIn(lines[..i + 1]) == CallsIn(lines[..i]) + (if IsCall(lines[i]) then 1 else 0)
    {
      assert lines[..i + 1][..i] == lines[..i];
    }

    // toolsCall. `nonce` is what a settlement was bound to, a what was answered.
    method ToolsCall(c: ToolCall) returns (reply: Reply, ghost nonce: u64, ghost a: seq<Option<int>>)
      requires Valid()
      modifies this`entered, st`log, st`used, st`saved, st.os`proc, st.os`deeds, st.os`policy, w
      ensures Valid() && st.os.proc.heads == old(st.os.proc.heads) && PlainSince(old(st.os.deeds), st.os.deeds)
      ensures old(st.log) <= st.log && old(st.saved) <= st.saved && w.time >= old(w.time)
      ensures old(st.used) <= st.used <= Max(old(st.used), cap.maxPayments)
      ensures entered == (old(entered) || !reply.Malformed?)
      ensures reply.Malformed? <==> !WellFormed(c)
      ensures reply.Malformed? ==> st.log == old(st.log) && st.used == old(st.used) && w.asked == old(w.asked)
      // An ALLOW is for a call that names the approved recipient and resource.
      ensures st.used != old(st.used) ==>
        && WellFormed(c) && c.amount.value <= cap.maxMicro && c.resource == cap.resource
        && Settle.Transport(settler.b58, c.to.value) == Settle.Transport(settler.b58, cap.recipient)
      // What the clock read first is what the call's expiry counts from.
      ensures !reply.Malformed? ==> |old(w.readings)| < |w.readings| && w.asked == old(w.asked) + a
      // It is settled exactly if it was allowed, saved, and not only evaluated; and
      // that goes through exactly if the settler is set up, in time, and every
      // answer it gets is favourable.
      ensures reply in {Evaluated, SettleFailed, Done} ==> st.used == old(st.used) + 1 && st.saved == |st.log|
      ensures reply.Refused? ==> st.used == old(st.used) && st.saved == |st.log|
      ensures reply in {SettleFailed, Done} ==>
        (reply.Done? <==>
           && settler.hasClient && Settle.Bindable(settler, cap.recipient)
           && w.time < Expiry(w.readings[|old(w.readings)|])
           && Settle.Favourable(settler, cap.recipient, c.amount.value, nonce, st.cfg.mode.DryRun?, a))
      ensures reply.Done? && st.cfg.mode.Live? ==> |w.sent| == |old(w.sent)| + 1
      ensures reply.Evaluated? ==> st.cfg.mode.Evaluate?
      // Nothing is signed or broadcast but after an ALLOW that is counted and,
      // with its entry, on disk; and before the call expires.
      ensures w.signed != old(w.signed) || w.sent != old(w.sent) ==>
        && reply in {SettleFailed, Done}
        && st.used == old(st.used) + 1
        && st.saved == |st.log| == |old(st.log)| + 1 && st.log[|old(st.log)|].allow
        && settler.key.Some?
      ensures w.signed != old(w.signed) ==> w.signedAt < Expiry(w.readings[|old(w.readings)|]) <= cap.expiresAt
      // What is broadcast pays the approved recipient the amount the call named.
      ensures settler.key.Some? ==>
        && var b := Settle.TermsFor(settler, cap.recipient, if c.amount.Some? then c.amount.value else 0, nonce);
        && Settle.AtMostThisPayment(b, old(w.signed), w.signed)
        && (w.sent == old(w.sent) || w.sent == old(w.sent) + w.signed[|old(w.signed)|..])
      ensures st.cfg.mode != Live ==> w.signed == old(w.signed) && w.sent == old(w.sent)
    {
      nonce, a := 0, [];
      if !c.rightTool || c.amount.None? || c.to.None? || c.amount.value == 0 {
        return Malformed, nonce, a;
      }
      reply, nonce, a := Attempt(c.to.value, c.amount.value, c.resource);
    }

    // A call leaves the checkpointer's own state alone; what it reads only grew.
    twostate lemma CallKeepsCheckpointer()
      requires old(cp.Valid()) && cp.st == st && cp.w == w
      requires unchanged(cp) && w.time >= old(w.time)
      requires st.Mirrors() && st.os.proc.phase.Running? && st.os.proc.job.Idle?
      requires old(st.log) <= st.log && PlainSince(old(st.os.deeds), st.os.deeds)
      requires old(st.saved) <= st.saved <= |st.log| && st.os.proc.heads == old(st.os.proc.heads)
      ensures cp.Valid()
    {
      PlainKeepsCheckpoints(old(st.os.deeds), st.os.deeds);
      assert forall n: nat :: n <= |old(st.log)| ==> st.log[..n] == old(st.log)[..n];
    }

    method Trigger()
      requires Valid() && cp.Valid()
      modifies st.os`proc, st.os`deeds, w`time, w`readings, w`receipts, cp
      ensures Valid() && cp.Valid()
      ensures cp.track.decisions == old(cp.track.decisions) + 1
    {
      ghost var a := cp.MaybePublish();
      CheckpointSpec.OneDecision(old(cp.track), Head(|st.log|, st.os.env.rootOf(st.log)), st.saved, a);
    }

    // handle, for tools/call: the checkpoint runs once the reply is written, and
    // only if the call recorded a decision.
    method Handle(c: ToolCall) returns (reply: Reply)
      requires Valid() && cp.Valid() && !entered
      modifies this`entered, st`log, st`used, st`saved, st.os`proc, st.os`deeds, st.os`policy, w, cp
      ensures Valid() && cp.Valid() && !entered
      ensures cp.track.decisions == old(cp.track.decisions) + (if WellFormed(c) then 1 else 0)
      ensures old(st.used) <= st.used <= Max(old(st.used), cap.maxPayments)
      ensures Grew(old(w.signed), w.signed, st.used - old(st.used))
      ensures Grew(old(w.sent), w.sent, st.used - old(st.used))
    {
      ghost var nonce, a;
      reply, nonce, a := ToolsCall(c);
      if w.signed != old(w.signed) {
        OnePaymentGrew(old(w.signed), w.signed, c.amount.value, nonce);
      }
      CallKeepsCheckpointer();
      if entered {
        entered := false;
        Trigger();
      }
    }

    lemma SentCosts(was: seq<Signed>, now: seq<Signed>, n: nat, gasPaid: Signed -> nat)
      requires Grew(was, now, n) && forall x: Signed :: Funds.GasWithin(x, gasPaid)
      ensures Funds.SentOutflow(now[|was|..], gasPaid)
           <= n * UnitCost(cap, settler)
    {
      var added, unit := now[|was|..], UnitCost(cap, settler);
      forall k: nat | k < |added|
        ensures Funds.Outflow(added[k].tx, gasPaid(added[k])) <= unit
      {
        var x := added[k];
        assert x == now[|was| + k] && PaysApproved(x);
        var micro: u64, nonce: u64 :| PaysApprovedAs(x, micro, nonce);
        assert Funds.GasWithin(x, gasPaid);
        Funds.PaymentIsBounded(settler, cap.recipient, micro, nonce, x.tx, gasPaid(x));
      }
      Funds.SentIsBounded(added, gasPaid, unit);
      Funds.TimesGrows(|added|, n, unit);
    }

    method HandleLine(l: Line)
      requires Valid() && cp.Valid() && !entered
      modifies this`entered, st`log, st`used, st`saved, st.os`proc, st.os`deeds, st.os`policy, w, cp
      ensures Valid() && cp.Valid() && !entered
      ensures cp.track.decisions == old(cp.track.decisions) + (if IsCall(l) then 1 else 0)
      ensures old(st.used) <= st.used <= Max(old(st.used), cap.maxPayments)
      ensures Grew(old(w.signed), w.signed, st.used - old(st.used))
      ensures Grew(old(w.sent), w.sent, st.used - old(st.used))
    {
      match l
      case Other =>
      case Call(c) => var reply := Handle(c);
    }

    // The input, line by line.
    method ServeLines(lines: seq<Line>)
      requires Valid() && cp.Valid() && !entered
      modifies this`entered, st`log, st`used, st`saved, st.os`proc, st.os`deeds, st.os`policy, w, cp
      ensures Valid() && cp.Valid() && !entered
      ensures cp.track.decisions == old(cp.track.decisions) + CallsIn(lines)
      ensures old(st.used) <= st.used <= Max(old(st.used), cap.maxPayments)
      ensures Grew(old(w.signed), w.signed, st.used - old(st.used))
      ensures Grew(old(w.sent), w.sent, st.used - old(st.used))
    {
      for i := 0 to |lines|
        invariant Valid() && cp.Valid() && !entered
        invariant cp.track.decisions == old(cp.track.decisions) + CallsIn(lines[..i])
        invariant old(st.used) <= st.used <= Max(old(st.used), cap.maxPayments)
        invariant Grew(old(w.signed), w.signed, st.used - old(st.used))
        invariant Grew(old(w.sent), w.sent, st.used - old(st.used))
      {
        ghost var used, signed, sent := st.used, w.signed, w.sent;
        HandleLine(lines[i]);
        GrewTwice(old(w.signed), signed, w.signed, used - old(st.used), st.used - used);
        GrewTwice(old(w.sent), sent, w.sent, used - old(st.used), st.used - used);
        OneMoreLine(lines, i);
      }
      assert lines[..|lines|] == lines;
    }

    // serve, until the input ends. Over all of it, whatever is asked and answered,
    // every well-formed call gets one decision; no more is broadcast than was
    // counted, all of it approved, and it costs the payer, in native units, at most
    // MaxMicro + MaxFeeMicro each.
    method Serve(lines: seq<Line>, ghost gasPaid: Signed -> nat)
      requires Valid() && cp.Valid() && !entered
      requires forall x: Signed :: Funds.GasWithin(x, gasPaid)
      modifies this`entered, st`log, st`used, st`saved, st.os`proc, st.os`deeds, st.os`policy, w, cp
      ensures Valid() && cp.Valid() && !entered
      ensures cp.track.decisions == old(cp.track.decisions) + CallsIn(lines)
      ensures old(st.used) <= st.used <= Max(old(st.used), cap.maxPayments)
      ensures Grew(old(w.signed), w.signed, st.used - old(st.used))
      ensures Grew(old(w.sent), w.sent, st.used - old(st.used))
      ensures Funds.SentOutflow(w.sent[|old(w.sent)|..], gasPaid)
           <= (st.used - old(st.used)) * UnitCost(cap, settler)
    {
      ServeLines(lines);
      ghost var was, now, n := old(w.sent), w.sent, st.used - old(st.used);
      assert Funds.SentOutflow(now[|was|..], gasPaid) <= n * UnitCost(cap, settler) by {
        SentCosts(was, now, n, gasPaid);
      }
    }

    // publishNow, once the input has ended.
    method Finish()
      requires Valid() && cp.Valid()
      modifies st.os`proc, st.os`deeds, w`time, w`readings, w`receipts, cp
      ensures Valid() && Announced(st, cp.loaded)
    {
      ghost var a := cp.PublishNow();
      assert st.log[..|st.log|] == st.log;
    }

    // The whole input, then one more checkpoint.
    method Run(lines: seq<Line>, ghost gasPaid: Signed -> nat)
      requires Valid() && cp.Valid() && !entered
      requires forall x: Signed :: Funds.GasWithin(x, gasPaid)
      modifies this`entered, st`log, st`used, st`saved, st.os`proc, st.os`deeds, st.os`policy, w, cp
      ensures Valid() && Announced(st, cp.loaded)
      ensures old(st.used) <= st.used <= Max(old(st.used), cap.maxPayments)
      ensures Extends(old(w.signed), w.signed, st.used - old(st.used))
      ensures Extends(old(w.sent), w.sent, st.used - old(st.used))
      ensures Funds.SentOutflow(w.sent[|old(w.sent)|..], gasPaid) <= (st.used - old(st.used)) * UnitCost(cap, settler)
    {
      Serve(lines, gasPaid);
      Finish();
    }
  }

  // A server and its checkpointer start in the states their methods ask for.
  method NewServer(st: LogState, cap: Capability, settler: Settle.Config, w: World, every: nat) returns (s: Server)
    requires st.Mirrors() && st.os.proc.phase.Running? && st.os.proc.job.Idle?
    requires st.published <= st.saved <= |st.log|
    requires st.os.env.maxPayments(st.cfg.cap) == cap.maxPayments && st.os.env.maxMicro(st.cfg.cap) == cap.maxMicro
    requires settler.maxFeeMicro == st.cfg.maxFee && PlainSince([], st.os.deeds)
    ensures fresh(s) && fresh(s.cp) && s.cp.loaded == st.published && s.Valid() && s.cp.Valid() && !s.entered
    ensures s.st == st && s.cap == cap && s.settler == settler && s.w == w
  {
    var cp := new Checkpointer(st, w, every);
    s := new Server(st, cap, settler, w, cp);
  }

  // Serve the input, then checkpoint once more.
  method ServeAndPublish(st: LogState, cap: Capability, settler: Settle.Config, w: World, every: nat,
                         lines: seq<Line>, ghost gasPaid: Signed -> nat)
    requires st.Mirrors() && st.os.proc.phase.Running? && st.os.proc.job.Idle?
    requires st.published <= st.saved <= |st.log|
    requires st.os.env.maxPayments(st.cfg.cap) == cap.maxPayments && st.os.env.maxMicro(st.cfg.cap) == cap.maxMicro
    requires settler.maxFeeMicro == st.cfg.maxFee && forall x: Signed :: Funds.GasWithin(x, gasPaid)
    requires PlainSince([], st.os.deeds)
    modifies st`log, st`used, st`saved, st.os`proc, st.os`deeds, st.os`policy, w
    ensures st.Mirrors() && old(st.used) <= st.used <= Max(old(st.used), cap.maxPayments)
    ensures Announced(st, old(st.published))
    ensures Extends(old(w.signed), w.signed, st.used - old(st.used))
    ensures Extends(old(w.sent), w.sent, st.used - old(st.used))
    ensures Funds.SentOutflow(w.sent[|old(w.sent)|..], gasPaid)
         <= (st.used - old(st.used)) * UnitCost(cap, settler)
  {
    var server := NewServer(st, cap, settler, w, every);
    server.Run(lines, gasPaid);
  }

  // A gateway from start to clean shutdown. Whatever count it finds on disk, one
  // session signs at most MaxPayments transactions, and what it broadcasts costs
  // at most that many times MaxMicro + MaxFeeMicro; it ends with no lock held.
  method Session(os: Os, cfg: Config, walkOk: bool, cap: Capability, settler: Settle.Config, w: World, every: nat,
                 lines: seq<Line>, ghost gasPaid: Signed -> nat)
    returns (served: bool, ghost st: LogState?)
    requires os.proc == NewProc(cfg) && os.open == multiset{} && os.deeds == []
    requires os.env.maxPayments(cfg.cap) == cap.maxPayments && os.env.maxMicro(cfg.cap) == cap.maxMicro
    requires settler.maxFeeMicro == cfg.maxFee && forall x: Signed :: Funds.GasWithin(x, gasPaid)
    modifies os, w
    ensures os.open == multiset{}
    ensures Extends(old(w.signed), w.signed, cap.maxPayments) && Extends(old(w.sent), w.sent, cap.maxPayments)
    ensures Funds.SentOutflow(w.sent[|old(w.sent)|..], gasPaid)
         <= cap.maxPayments * UnitCost(cap, settler)
    ensures !served ==> w.signed == old(w.signed) && w.sent == old(w.sent)
    ensures served ==> st != null && st.os == os && Announced(st, st.published)
  {
    ghost var found;
    var state;
    state, found := OpenLogState(os, cfg, walkOk, map[], map[]);
    st := state;
    if state == null {
      return false, st;
    }
    ghost var used := state.used;
    ServeAndPublish(state, cap, settler, w, every, lines, gasPaid);
    Funds.TimesGrows(state.used - used, cap.maxPayments, UnitCost(cap, settler));
    CloseBoth(os, state.lock, state.capLock);
    return true, st;
  }
}
