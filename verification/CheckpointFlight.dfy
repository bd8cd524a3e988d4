// One checkpoint in flight at a time: before anything more is sent, an
// acknowledged checkpoint has been seen mined or reverted, or has gone unseen for
// ten minutes.
module CheckpointFlight {
  import opened Wrappers
  import opened Machine
  import opened CheckpointSpec

  predicate Acked(e: Event) {
    e.Sent? && e.ack.Some?
  }

  predicate Closes(c: Event, e: Event) {
    e.Sent? &&
    match c
    case Mined(n, tx) => n == e.n && e.ack == Some(tx)
    case Dropped(n, tx, reverted, at) => n == e.n && e.ack == Some(tx) && (reverted || at - e.at > PENDING_TIMEOUT)
    case _ => false
  }

  ghost predicate Closed(events: seq<Event>, i: nat, j: nat)
    requires i < |events| && j <= |events|
  {
    exists k :: i < k < j && Closes(events[k], events[i])
  }

  predicate StartedBy(e: Event, p: Pending) {
    AckedBy(e, p) && e.at == p.sent
  }

  // Every send that is not closed is the one pending.
  ghost predicate Accounted(t: Track, i: nat)
    requires i < |t.events|
  {
    Acked(t.events[i]) ==>
      || Closed(t.events, i, |t.events|)
      || (t.pending.Some? && StartedBy(t.events[i], t.pending.value))
  }

  ghost predicate OneAtATime(events: seq<Event>) {
    forall i, j :: 0 <= i < j < |events| && Acked(events[i]) && events[j].Sent? ==> Closed(events, i, j)
  }

  ghost predicate FlightInv(t: Track) {
    OneAtATime(t.events) && forall i: nat :: i < |t.events| ==> Accounted(t, i)
  }

  lemma ClosedExtends(events: seq<Event>, e: Event, i: nat, j: nat)
    requires i < |events| && j <= |events|
    ensures Closed(events, i, j) ==> Closed(events + [e], i, j) && Closed(events + [e], i, j + 1)
    ensures j == |events| && Closes(e, events[i]) ==> Closed(events + [e], i, j + 1)
  {
    if Closed(events, i, j) {
      var k :| i < k < j && Closes(events[k], events[i]);
      assert Closes((events + [e])[k], (events + [e])[i]);
    }
    if j == |events| && Closes(e, events[i]) {
      assert Closes((events + [e])[j], (events + [e])[i]);
    }
  }

  // One event more: a send only with nothing unclosed, and whatever stops being
  // pending is closed by it.
  lemma AppendKeepsFlight(t: Track, e: Event, t': Track)
    requires FlightInv(t) && t'.events == t.events + [e]
    requires e.Sent? ==> t.pending.None?
    requires t.pending.Some? ==>
      t'.pending == t.pending ||
      forall i: nat :: i < |t.events| && StartedBy(t.events[i], t.pending.value) ==> Closes(e, t.events[i])
    requires Acked(e) ==> t'.pending.Some? && StartedBy(e, t'.pending.value)
    ensures FlightInv(t')
  {
    var n := |t.events|;
    forall i: nat | i < n
      ensures Accounted(t', i)
      ensures Acked(t.events[i]) && e.Sent? ==> Closed(t'.events, i, n)
    {
      assert Accounted(t, i);
      ClosedExtends(t.events, e, i, n);
    }
    forall i, j | 0 <= i < j < n && Acked(t.events[i]) && t.events[j].Sent?
      ensures Closed(t'.events, i, j)
    {
      ClosedExtends(t.events, e, i, j);
    }
  }

  lemma SameFlight(t: Track, t': Track)
    requires FlightInv(t) && t'.events == t.events && t'.pending == t.pending
    ensures FlightInv(t')
  {
    forall i: nat | i < |t.events|
      ensures Accounted(t', i)
    {
      assert Accounted(t, i);
    }
  }

  lemma ConfirmKeepsFlight(t: Track, a: ConfirmAnswer)
    requires FlightInv(t)
    ensures FlightInv(Confirm(t, a))
  {
    var t' := Confirm(t, a);
    if t.pending.None? || t'.pending.Some? {
      SameFlight(t, t');
    } else if a.receipt.Success? {
      var mined := Mined(t.pending.value.n, t.pending.value.tx);
      var t1 := t.(pending := None, events := t.events + [mined]);
      AppendKeepsFlight(t, mined, t1);
      AppendKeepsFlight(t1, t'.events[|t.events| + 1], t');
    } else {
      AppendKeepsFlight(t, t'.events[|t.events|], t');
    }
  }

  lemma SendKeepsFlight(t: Track, h: Head, a: SendAnswer, shutdown: bool)
    requires FlightInv(t) && t.pending.None?
    ensures FlightInv(CheckpointSpec.Send(t, h, a, shutdown))
  {
    var t' := CheckpointSpec.Send(t, h, a, shutdown);
    AppendKeepsFlight(t, t'.events[|t.events|], t');
  }

  lemma PublishKeepsFlight(t: Track, h: Head, wait: bool, a: PublishAnswer)
    requires FlightInv(t)
    ensures FlightInv(Publish(t, h, wait, a).0)
  {
    var t1 := Confirm(t, a.before);
    ConfirmKeepsFlight(t, a.before);
    if Judge(t1, h) == Go {
      SendKeepsFlight(t1, h, a.send, wait);
      ConfirmKeepsFlight(CheckpointSpec.Send(t1, h, a.send, wait), a.after);
    }
  }

  lemma MaybePublishKeepsFlight(t: Track, h: Head, saved: nat, a: TriggerAnswer)
    requires FlightInv(t)
    ensures FlightInv(MaybePublish(t, h, saved, a))
  {
    var t0 := Confirm(t, a.first);
    ConfirmKeepsFlight(t, a.first);
    var t1 := Decided(t0, saved);
    SameFlight(t0, t1);
    SameFlight(t1, t1.(clock := a.now));
    PublishKeepsFlight(t1.(clock := a.now), h, false, a.publish);
    var r := Publish(t1.(clock := a.now), h, false, a.publish);
    SameFlight(r.0, r.0.(since := 0));
  }

  lemma {:induction false} ReplayKeepsFlight(t: Track, calls: seq<Call>)
    requires FlightInv(t)
    ensures FlightInv(Replay(t, calls))
  {
    if calls != [] {
      var u := Replay(t, calls[..|calls| - 1]);
      ReplayKeepsFlight(t, calls[..|calls| - 1]);
      match calls[|calls| - 1]
      case Decision(h, saved, a) => MaybePublishKeepsFlight(u, h, saved, a);
      case Shutdown(h, saved, a) =>
        SameFlight(u, u.(saved := saved));
        PublishKeepsFlight(u.(saved := saved), h, true, a);
    }
  }

  // In every run, whatever the endpoint and the clock answer.
  lemma OneInFlight(every: nat, published: nat, saved: nat, clock: int, calls: seq<Call>)
    ensures OneAtATime(Replay(Fresh(every, published, saved, clock), calls).events)
  {
    ReplayKeepsFlight(Fresh(every, published, saved, clock), calls);
  }
}
