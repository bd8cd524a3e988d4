// What waiting is for: how long an endpoint that never shows a receipt can keep
// the next checkpoint back, and what a clean shutdown leaves recorded.
module CheckpointWaits {
  import opened Wrappers
  import opened Files
  import opened Machine
  import opened CheckpointSpec
  import opened CheckpointRepeats

  // Every look for a receipt finds none, and none is later than this.
  predicate NothingSeen(a: ConfirmAnswer, until: int) {
    a.receipt.Unseen? && a.now <= until
  }

  predicate OnlyUnseen(c: Call, until: int) {
    match c
    case Decision(_, _, a) =>
      NothingSeen(a.first, until) && NothingSeen(a.publish.before, until) && NothingSeen(a.publish.after, until)
    case Shutdown(_, _, a) => NothingSeen(a.before, until) && NothingSeen(a.after, until)
  }

  // Some continuation sends this head, though no receipt is ever seen.
  ghost predicate MaySendUnseen(t: Track, n: nat, root: Root, until: int) {
    exists more: seq<Call> ::
      && AllTimely(t, more) && (forall c <- more :: OnlyUnseen(c, until))
      && exists j: nat :: |t.events| <= j < |Replay(t, more).events| && SendsHead(Replay(t, more).events[j], n, root)
  }

  // Until the timeout, nothing but waiting happens.
  lemma StepWaits(t: Track, c: Call, until: int)
    requires t.pending.Some? && until - t.pending.value.sent <= PENDING_TIMEOUT && OnlyUnseen(c, until)
    ensures CheckpointSpec.Step(t, c).pending == t.pending && CheckpointSpec.Step(t, c).events == t.events
  {
  }

  lemma {:induction false} ReplayWaits(t: Track, calls: seq<Call>, until: int)
    requires t.pending.Some? && until - t.pending.value.sent <= PENDING_TIMEOUT
    requires forall c <- calls :: OnlyUnseen(c, until)
    ensures Replay(t, calls).pending == t.pending && Replay(t, calls).events == t.events
  {
    if calls != [] {
      ReplayWaits(t, calls[..|calls| - 1], until);
      StepWaits(Replay(t, calls[..|calls| - 1]), calls[|calls| - 1], until);
    }
  }

  // A clean shutdown that finds no receipt, saves a log of n entries and hands its
  // head over.
  function LateShutdown(n: nat, root: Root, until: int): Call {
    var unseen := ConfirmAnswer(Unseen, until, false);
    Shutdown(Head(n, root), n, PublishAnswer(unseen, SendAnswer(None, 0, 0), unseen))
  }

  // After the timeout, it gives the pending checkpoint up and sends.
  lemma LateShutdownStep(t: Track, n: nat, root: Root, until: int)
    requires Inv(t) && t.pending.Some? && t.clock <= until && t.saved <= n && t.recorded < n
    requires until - t.pending.value.sent > PENDING_TIMEOUT
    ensures var c := LateShutdown(n, root, until);
      && Timely(t, c) && OnlyUnseen(c, until)
      && var u := CheckpointSpec.Step(t, c);
         |u.events| > |t.events| && SendsHead(u.events[|u.events| - 1], n, root)
  {
    var h, unseen := Head(n, root), ConfirmAnswer(Unseen, until, false);
    var t1 := t.(saved := n);
    SameHistory(t, t1);
    ConfirmKeepsInv(t1, unseen);
    var t2 := Confirm(t1, unseen);
    PassedOverIffMined(t2, h);
    assert Judge(t2, h) == Go && t2.events == t.events + [Dropped(t.pending.value.n, t.pending.value.tx, false, until)];
  }

  lemma LateShutdownSends(t: Track, n: nat, root: Root, until: int)
    requires Inv(t) && t.pending.Some? && t.clock <= until && t.saved <= n && t.recorded < n
    requires until - t.pending.value.sent > PENDING_TIMEOUT
    ensures MaySendUnseen(t, n, root, until)
  {
    var c := LateShutdown(n, root, until);
    LateShutdownStep(t, n, root, until);
    ReplayOneMore(t, [], c);
    assert [] + [c] == [c] && Replay(t, []) == t;
    assert SendsHead(Replay(t, [c]).events[|Replay(t, [c]).events| - 1], n, root);
  }

  // While a checkpoint is in flight, an endpoint that never shows a receipt can
  // keep a head that is otherwise due, the one in flight or a newer one, from
  // being sent for exactly ten minutes from when that checkpoint was sent.
  lemma SendsUnseenIffTimedOut(t: Track, n: nat, root: Root, until: int)
    requires Inv(t) && t.pending.Some? && t.clock <= until && t.saved <= n && t.recorded < n
    ensures MaySendUnseen(t, n, root, until) <==> until - t.pending.value.sent > PENDING_TIMEOUT
  {
    if until - t.pending.value.sent > PENDING_TIMEOUT {
      LateShutdownSends(t, n, root, until);
    } else if MaySendUnseen(t, n, root, until) {
      var more: seq<Call> :| AllTimely(t, more) && (forall c <- more :: OnlyUnseen(c, until)) && exists j: nat ::
        |t.events| <= j < |Replay(t, more).events| && SendsHead(Replay(t, more).events[j], n, root);
      ReplayWaits(t, more, until);
    }
  }

  // ---- at shutdown ----

  // Nothing in flight is missing, and what is sent is acknowledged and seen mined.
  predicate Healthy(a: PublishAnswer) {
    a.before.receipt.Success? && a.send.ack.Some? && a.after.receipt.Success?
  }

  // With a healthy endpoint, a clean shutdown leaves the whole saved log seen
  // mined, nothing in flight, and a record of it attempted in this run or loaded.
  lemma ShutdownRecords(t: Track, h: Head, a: PublishAnswer)
    requires Inv(t) && t.saved <= h.n && h.n >= 1 && PublishTimely(t.(saved := h.n), h, true, a) && Healthy(a)
    ensures var t' := PublishNow(t, h, h.n, a);
      && t'.recorded == h.n && t'.pending.None?
      && (t.recorded < h.n ==>
            t'.events != [] && t'.events[|t'.events| - 1].Recorded? && t'.events[|t'.events| - 1].n == h.n)
  {
  }

  // Without the wait it leaves that checkpoint in flight, for the next run to
  // send again.
  lemma WithoutWaitingItIsNotRecorded(t: Track, h: Head, a: PublishAnswer)
    requires Inv(t) && t.pending.None? && t.recorded < h.n && t.saved <= h.n && Healthy(a)
    ensures var t' := Publish(t.(saved := h.n), h, false, a).0;
      t'.recorded < h.n && t'.pending.Some? && t'.pending.value.n == h.n
  {
  }
}
