// When a head can be sent, and so when one that was sent can be sent again: in
// the rest of its run, and in a later run, whatever the last attempts to write
// the checkpoint record left behind.
module CheckpointRepeats {
  import opened Wrappers
  import opened Files
  import opened Machine
  import opened CheckpointSpec

  // ---- what a run sends from here on ----

  // From t to u: sizes only grow, and everything sent in between was the saved
  // log of its time, newer than whatever had been seen mined by then.
  ghost predicate Later(t: Track, u: Track) {
    && t.saved <= u.saved && t.recorded <= u.recorded && t.events <= u.events
    && forall j: nat :: |t.events| <= j < |u.events| && u.events[j].Sent? ==>
         t.saved <= u.events[j].n <= u.saved && t.recorded < u.events[j].n
  }

  lemma LaterIsTransitive(t: Track, u: Track, v: Track)
    requires Later(t, u) && Later(u, v)
    ensures Later(t, v)
  {
  }

  lemma ConfirmIsLater(t: Track, a: ConfirmAnswer)
    requires StateInv(t)
    ensures Later(t, Confirm(t, a))
  {
  }

  lemma SendIsLater(t: Track, h: Head, a: SendAnswer, shutdown: bool)
    requires StateInv(t) && Judge(t, h) == Go
    ensures Later(t, CheckpointSpec.Send(t, h, a, shutdown))
  {
  }

  lemma PublishIsLater(t: Track, h: Head, wait: bool, a: PublishAnswer)
    requires Inv(t) && PublishTimely(t, h, wait, a)
    ensures Later(t, Publish(t, h, wait, a).0)
  {
    var t1 := Confirm(t, a.before);
    ConfirmKeepsInv(t, a.before);
    ConfirmIsLater(t, a.before);
    if Judge(t1, h) == Go {
      var t2 := CheckpointSpec.Send(t1, h, a.send, wait);
      SendIsLater(t1, h, a.send, wait);
      LaterIsTransitive(t, t1, t2);
      if a.send.ack.Some? && wait {
        SendKeepsInv(t1, h, a.send, wait);
        ConfirmIsLater(t2, a.after);
        LaterIsTransitive(t, t2, Confirm(t2, a.after));
      }
    }
  }

  lemma StepIsLater(t: Track, c: Call)
    requires Inv(t) && Timely(t, c)
    ensures Later(t, CheckpointSpec.Step(t, c))
  {
    match c
    case Decision(h, saved, a) =>
      var t0 := Confirm(t, a.first);
      var t1 := Decided(t0, saved).(clock := a.now);
      ConfirmKeepsInv(t, a.first);
      ConfirmIsLater(t, a.first);
      LaterIsTransitive(t, t0, t1);
      SameHistory(t0, t1);
      if Due(t1, a.now) {
        PublishIsLater(t1, h, false, a.publish);
        LaterIsTransitive(t, t1, Publish(t1, h, false, a.publish).0);
      }
    case Shutdown(h, saved, a) =>
      var t1 := t.(saved := saved);
      SameHistory(t, t1);
      PublishIsLater(t1, h, true, a);
      LaterIsTransitive(t, t1, Publish(t1, h, true, a).0);
  }

  lemma {:induction false} ReplayIsLater(t: Track, calls: seq<Call>)
    requires Inv(t) && AllTimely(t, calls)
    ensures Later(t, Replay(t, calls))
  {
    if calls != [] {
      var front, c := calls[..|calls| - 1], calls[|calls| - 1];
      ReplayIsLater(t, front);
      ReplayKeepsInv(t, front);
      StepIsLater(Replay(t, front), c);
      LaterIsTransitive(t, Replay(t, front), CheckpointSpec.Step(Replay(t, front), c));
    }
  }

  // ---- which heads can still be sent ----

  predicate SendsHead(e: Event, n: nat, root: Root) {
    e.Sent? && e.n == n && e.root == root
  }

  // Some continuation from t sends this head.
  ghost predicate MaySend(t: Track, n: nat, root: Root) {
    exists more: seq<Call> ::
      && AllTimely(t, more)
      && exists j: nat :: |t.events| <= j < |Replay(t, more).events| && SendsHead(Replay(t, more).events[j], n, root)
  }

  // With none in flight, the saved head is passed over exactly if it is empty or
  // the newest one loaded or seen mined: a reverted or dropped head is sent again.
  lemma PassedOverIffMined(t: Track, h: Head)
    requires Inv(t) && t.pending.None? && h.n == t.saved
    ensures Judge(t, h) == Go <==> h.n > t.recorded
    ensures Judge(t, h) == Nothing <==> h.n == 0 || h.n == t.recorded
  {
  }

  // The clean shutdown that sends a head: whatever is in flight has reverted, and
  // the log of that size is saved.
  lemma ShutdownSends(t: Track, n: nat, root: Root)
    requires Inv(t) && t.recorded < n && t.saved <= n
    ensures MaySend(t, n, root)
  {
    var reverted := ConfirmAnswer(Reverted, t.clock, false);
    var c := Shutdown(Head(n, root), n, PublishAnswer(reverted, SendAnswer(None, 0, 0), reverted));
    var t1 := t.(saved := n);
    SameHistory(t, t1);
    ConfirmKeepsInv(t1, reverted);
    PassedOverIffMined(Confirm(t1, reverted), Head(n, root));
    ReplayOneMore(t, [], c);
    assert [] + [c] == [c] && Replay(t, []) == t;
    var u := Replay(t, [c]);
    assert SendsHead(u.events[|u.events| - 1], n, root);
  }

  // From any state of any run, a head can still be sent exactly if it is at least
  // the saved log and newer than the loaded record and all seen mined since.
  lemma MaySendIffNewer(t: Track, n: nat, root: Root)
    requires Inv(t)
    ensures MaySend(t, n, root) <==> t.saved <= n && t.recorded < n
  {
    if t.saved <= n && t.recorded < n {
      ShutdownSends(t, n, root);
    }
    if MaySend(t, n, root) {
      var more: seq<Call> :| AllTimely(t, more) && exists j: nat ::
        |t.events| <= j < |Replay(t, more).events| && SendsHead(Replay(t, more).events[j], n, root);
      ReplayIsLater(t, more);
    }
  }

  // ---- repeats: in the same run ----

  // A run has sent this head.
  ghost predicate HasSent(t: Track, n: nat, root: Root) {
    exists i: nat :: i < |t.events| && SendsHead(t.events[i], n, root)
  }

  lemma SentIsSaved(every: nat, published: nat, saved: nat, clock: int, calls: seq<Call>, n: nat, root: Root)
    requires published <= saved && AllTimely(Fresh(every, published, saved, clock), calls)
    requires HasSent(Replay(Fresh(every, published, saved, clock), calls), n, root)
    ensures var t := Replay(Fresh(every, published, saved, clock), calls);
      Inv(t) && published < n <= t.saved
  {
    ReplayKeepsInv(Fresh(every, published, saved, clock), calls);
    ReplayIsLater(Fresh(every, published, saved, clock), calls);
  }

  // A head that a run has sent can be sent again in that run, acknowledged or
  // not, exactly while the saved log is still that head and neither it nor a
  // newer one has been seen mined.
  lemma RepeatsInRunIff(every: nat, published: nat, saved: nat, clock: int, calls: seq<Call>, n: nat, root: Root)
    requires published <= saved && AllTimely(Fresh(every, published, saved, clock), calls)
    requires HasSent(Replay(Fresh(every, published, saved, clock), calls), n, root)
    ensures var t := Replay(Fresh(every, published, saved, clock), calls);
      MaySend(t, n, root) <==> t.saved == n && t.recorded < n
  {
    SentIsSaved(every, published, saved, clock, calls, n, root);
    MaySendIffNewer(Replay(Fresh(every, published, saved, clock), calls), n, root);
  }

  // ---- repeats: in a later run ----

  // In a later run, exactly if the log it loads is that head and the record it
  // loads is older, whether or not the head was seen mined.
  lemma RepeatsAfterRestartIff(every: nat, published: nat, saved: nat, clock: int, calls: seq<Call>, n: nat, root: Root,
                               loaded: nat, reloaded: nat, now: int)
    requires published <= saved && AllTimely(Fresh(every, published, saved, clock), calls)
    requires var t := Replay(Fresh(every, published, saved, clock), calls);
      HasSent(t, n, root) && Restartable(t, loaded, reloaded, now)
    ensures MaySend(Fresh(every, loaded, reloaded, now), n, root) <==> reloaded == n && loaded < n
  {
    SentIsSaved(every, published, saved, clock, calls, n, root);
    MaySendIffNewer(Fresh(every, loaded, reloaded, now), n, root);
  }

  // The sizes that the record file may name after a history, one of which the
  // next run loads: a write that went through leaves its own, one that failed may
  // have left either.
  function OnDisk(published: nat, events: seq<Event>): set<nat> {
    if events == [] then {published}
    else
      var e, before := events[|events| - 1], OnDisk(published, events[..|events| - 1]);
      if !e.Recorded? then before
      else if e.wrote then {e.n}
      else before + {e.n}
  }

  ghost predicate RecordsGrow(published: nat, events: seq<Event>) {
    && (forall i: nat :: i < |events| && events[i].Recorded? ==> published < events[i].n)
    && (forall i, j :: 0 <= i < j < |events| && events[i].Recorded? && events[j].Recorded? ==>
          events[i].n < events[j].n)
  }

  // A record of n entries or more has been written.
  ghost predicate WroteRecord(events: seq<Event>, n: nat) {
    exists i: nat :: i < |events| && events[i].Recorded? && events[i].wrote && n <= events[i].n
  }

  lemma WroteRecordOneMore(front: seq<Event>, e: Event, n: nat)
    ensures WroteRecord(front + [e], n) <==> WroteRecord(front, n) || (e.Recorded? && e.wrote && n <= e.n)
  {
    var events := front + [e];
    if WroteRecord(front, n) {
      var i: nat :| i < |front| && front[i].Recorded? && front[i].wrote && n <= front[i].n;
      assert events[i] == front[i];
    }
    if e.Recorded? && e.wrote && n <= e.n {
      assert events[|front|] == e;
    }
  }

  ghost predicate HasOlder(sizes: set<nat>, n: nat) {
    exists k <- sizes :: k < n
  }

  lemma {:induction false} OlderOnDiskIffNotWritten(published: nat, events: seq<Event>, n: nat)
    requires RecordsGrow(published, events) && published < n
    ensures HasOlder(OnDisk(published, events), n) <==> !WroteRecord(events, n)
  {
    if events == [] {
      assert published in OnDisk(published, events);
    } else {
      var front, e := events[..|events| - 1], events[|events| - 1];
      assert events == front + [e];
      OlderOnDiskIffNotWritten(published, front, n);
      WroteRecordOneMore(front, e, n);
      if e.Recorded? {
        assert e.n in OnDisk(published, events);
        assert e.n < n ==> !WroteRecord(front, n);
      }
    }
  }

  lemma {:induction false} OnDiskIsBounded(published: nat, events: seq<Event>, bound: nat)
    requires published <= bound && forall i: nat :: i < |events| && events[i].Recorded? ==> events[i].n <= bound
    ensures OnDisk(published, events) != {} && forall k <- OnDisk(published, events) :: k <= bound
  {
    if events == [] {
      assert published in OnDisk(published, events);
    } else {
      var front, e := events[..|events| - 1], events[|events| - 1];
      OnDiskIsBounded(published, front, bound);
      if e.Recorded? {
        assert e.n in OnDisk(published, events);
      }
    }
  }

  // Some run that starts from this log, with a record the disk may hold, sends
  // this head.
  ghost predicate NextRunMaySend(t: Track, published: nat, reloaded: nat, now: int, n: nat, root: Root) {
    exists loaded <- OnDisk(published, t.events) ::
      Restartable(t, loaded, reloaded, now) && MaySend(Fresh(t.every, loaded, reloaded, now), n, root)
  }

  lemma RunRecordsGrow(every: nat, published: nat, saved: nat, clock: int, calls: seq<Call>)
    requires published <= saved && AllTimely(Fresh(every, published, saved, clock), calls)
    ensures var t := Replay(Fresh(every, published, saved, clock), calls);
      RecordsGrow(published, t.events) && forall k <- OnDisk(published, t.events) :: k <= t.saved
  {
    var t := Replay(Fresh(every, published, saved, clock), calls);
    RunHistory(every, published, saved, clock, calls);
    ReplayIsLater(Fresh(every, published, saved, clock), calls);
    forall j: nat | j < |t.events| && t.events[j].Recorded?
      ensures published < t.events[j].n <= t.saved
    {
      assert Justified(t.events, j) && Bounded(t, t.events[j]);
      var r := t.events[j];
      var i: nat :| i < j && AckedBy(t.events[..j][i], Pending(r.n, r.root, r.tx, 0, 0));
      assert t.events[i].Sent? && t.events[i].n == r.n;
    }
    assert forall i, j :: 0 <= i < j < |t.events| ==> Ordered(every, t.events[i], t.events[j]);
    OnDiskIsBounded(published, t.events, t.saved);
  }

  // So the run after this one can send a head again exactly if it loads that very
  // log and no record as new has been written: a head seen mined is sent again
  // when writing its record failed.
  lemma NextRunRepeatsIff(every: nat, published: nat, saved: nat, clock: int, calls: seq<Call>, n: nat, root: Root,
                          reloaded: nat, now: int)
    requires published <= saved && AllTimely(Fresh(every, published, saved, clock), calls)
    requires var t := Replay(Fresh(every, published, saved, clock), calls);
      HasSent(t, n, root) && t.saved <= reloaded && t.clock <= now
    ensures var t := Replay(Fresh(every, published, saved, clock), calls);
      NextRunMaySend(t, published, reloaded, now, n, root) <==> reloaded == n && !WroteRecord(t.events, n)
  {
    var t := Replay(Fresh(every, published, saved, clock), calls);
    RunHistory(every, published, saved, clock, calls);
    SentIsSaved(every, published, saved, clock, calls, n, root);
    RunRecordsGrow(every, published, saved, clock, calls);
    OlderOnDiskIffNotWritten(published, t.events, n);
    forall loaded <- OnDisk(published, t.events)
      ensures MaySend(Fresh(every, loaded, reloaded, now), n, root) <==> reloaded == n && loaded < n
    {
      RepeatsAfterRestartIff(every, published, saved, clock, calls, n, root, loaded, reloaded, now);
    }
  }

  // ---- a head seen mined, and sent again ----

  // A decision that sends the one entry there is, and is acknowledged.
  function SendsOne(tx: TxHash): Call {
    var none := ConfirmAnswer(Unseen, 0, false);
    Decision(Head(1, 0), 1, TriggerAnswer(none, 0, PublishAnswer(none, SendAnswer(Some(tx), 0, 0), none)))
  }

  lemma SendsOneSends(tx: TxHash)
    ensures Timely(Fresh(1, 0, 1, 0), SendsOne(tx))
    ensures CheckpointSpec.Step(Fresh(1, 0, 1, 0), SendsOne(tx))
         == Fresh(1, 0, 1, 0).(decisions := 1, published := 1, last := Some(0), acks := 1,
                               events := [Sent(1, 0, Some(tx), 0, 1, false)], pending := Some(Pending(1, 0, tx, 0, 0)))
  {
  }

  lemma MinedHeadTwice() returns (first: seq<Call>, second: seq<Call>)
    ensures AllTimely(Fresh(1, 0, 1, 0), first) && AllTimely(Fresh(1, 0, 1, 0), second)
    ensures Replay(Fresh(1, 0, 1, 0), first).events
         == [Sent(1, 0, Some(7), 0, 1, false), Mined(1, 7), Recorded(1, 0, 7, false)]
    ensures Restartable(Replay(Fresh(1, 0, 1, 0), first), 0, 1, 0)
    ensures 0 in OnDisk(0, Replay(Fresh(1, 0, 1, 0), first).events)
    ensures Replay(Fresh(1, 0, 1, 0), second).events == [Sent(1, 0, Some(8), 0, 1, false)]
  {
    var start := Fresh(1, 0, 1, 0);
    var none := ConfirmAnswer(Unseen, 0, false);
    var d := Shutdown(Head(1, 0), 1, PublishAnswer(ConfirmAnswer(Success, 0, false), SendAnswer(None, 0, 0), none));
    assert forall c: Call :: [] + [c] == [c];
    SendsOneSends(7);
    SendsOneSends(8);
    ReplayOneMore(start, [], SendsOne(7));
    ReplayOneMore(start, [SendsOne(7)], d);
    ReplayOneMore(start, [], SendsOne(8));
    first, second := [SendsOne(7)] + [d], [SendsOne(8)];
    var events := Replay(start, first).events;
    assert events[..2][..1][..0] == [] && OnDisk(0, events[..2][..1]) == {0};
  }
}
