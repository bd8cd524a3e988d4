// How close two checkpoints that decisions triggered can come. Only an
// acknowledged send starts the minute that the next one waits for, and the
// minute is forgotten when the gateway restarts.
module CheckpointSpacing {
  import opened Wrappers
  import opened Files
  import opened Machine
  import opened CheckpointSpec

  // ---- within one run ----

  // In any run, of two triggered sends less than a minute apart, or fewer than
  // `every` decisions apart, the first was answered with an error.
  lemma CloseSendsAreUnacknowledged(every: nat, published: nat, saved: nat, clock: int,
                                    calls: seq<Call>, i: nat, j: nat)
    requires published <= saved && AllTimely(Fresh(every, published, saved, clock), calls)
    requires var events := Replay(Fresh(every, published, saved, clock), calls).events;
      && i < j < |events| && Triggered(events[i]) && Triggered(events[j])
      && (events[j].at - events[i].at < MIN_INTERVAL || events[j].decision < events[i].decision + every)
    ensures Replay(Fresh(every, published, saved, clock), calls).events[i].ack.None?
  {
    RunHistory(every, published, saved, clock, calls);
    var events := Replay(Fresh(every, published, saved, clock), calls).events;
    assert Ordered(every, events[i], events[j]);
  }

  // The newest event is a triggered send that was answered with an error.
  predicate JustFailed(t: Track) {
    t.events != [] && Triggered(t.events[|t.events| - 1]) && t.events[|t.events| - 1].ack.None?
  }

  // After a send that failed, the next decision that finds a saved head sends.
  predicate Retries(t: Track) {
    JustFailed(t) ==>
      && t.pending.None? && t.since >= t.every && t.published < t.saved
      && (t.last.Some? ==> t.clock - t.last.value >= MIN_INTERVAL)
  }

  lemma ConfirmKeepsRetries(t: Track, a: ConfirmAnswer)
    requires Retries(t)
    ensures Retries(Confirm(t, a))
  {
  }

  lemma SendKeepsRetries(t: Track, h: Head, a: SendAnswer, shutdown: bool)
    requires StateInv(t) && Judge(t, h) == Go && (!shutdown ==> Due(t, t.clock))
    ensures var t' := CheckpointSpec.Send(t, h, a, shutdown);
      Retries(t') && Retries(if a.ack.Some? then t'.(since := 0) else t')
  {
  }

  lemma PublishKeepsRetries(t: Track, h: Head, wait: bool, a: PublishAnswer)
    requires Inv(t) && Retries(t) && PublishTimely(t, h, wait, a) && (!wait ==> Due(t, t.clock))
    ensures var r := Publish(t, h, wait, a);
      Retries(if r.1 && !wait then r.0.(since := 0) else r.0)
  {
    var t1 := Confirm(t, a.before);
    ConfirmKeepsInv(t, a.before);
    ConfirmKeepsRetries(t, a.before);
    if Judge(t1, h) == Go {
      SendKeepsRetries(t1, h, a.send, wait);
      ConfirmKeepsRetries(CheckpointSpec.Send(t1, h, a.send, wait), a.after);
    }
  }

  lemma StepKeepsRetries(t: Track, c: Call)
    requires Inv(t) && Retries(t) && Timely(t, c)
    ensures Retries(CheckpointSpec.Step(t, c))
  {
    match c
    case Decision(h, saved, a) =>
      ConfirmKeepsInv(t, a.first);
      var t0 := Confirm(t, a.first);
      var t1 := Decided(t0, saved);
      if Due(t1, a.now) {
        SameHistory(t0, t1.(clock := a.now));
        PublishKeepsRetries(t1.(clock := a.now), h, false, a.publish);
      }
    case Shutdown(h, saved, a) =>
      SameHistory(t, t.(saved := saved));
      PublishKeepsRetries(t.(saved := saved), h, true, a);
  }

  lemma {:induction false} ReplayKeepsRetries(t: Track, calls: seq<Call>)
    requires Inv(t) && Retries(t) && AllTimely(t, calls)
    ensures Retries(Replay(t, calls))
  {
    if calls != [] {
      ReplayKeepsRetries(t, calls[..|calls| - 1]);
      ReplayKeepsInv(t, calls[..|calls| - 1]);
      StepKeepsRetries(Replay(t, calls[..|calls| - 1]), calls[|calls| - 1]);
    }
  }

  ghost predicate AnotherWithinAMinute(events: seq<Event>, i: nat)
    requires i < |events| && events[i].Sent?
  {
    exists j :: i < j < |events| && Triggered(events[j]) && events[j].at - events[i].at < MIN_INTERVAL
  }

  // Some continuation of the run sends again within a minute of its i-th event.
  ghost predicate MaySendAgain(start: Track, calls: seq<Call>, i: nat) {
    exists more: seq<Call> ::
      && AllTimely(start, calls + more)
      && var events := Replay(start, calls + more).events;
      && i < |events| && events[i].Sent? && AnotherWithinAMinute(events, i)
  }

  // One more decision, for a log one entry longer, at this very second.
  function NextDecision(t: Track, ack: Option<TxHash>): Call {
    var none := ConfirmAnswer(Unseen, t.clock, false);
    Decision(Head(t.saved + 1, 0), t.saved + 1,
             TriggerAnswer(none, t.clock, PublishAnswer(none, SendAnswer(ack, t.clock, t.clock), none)))
  }

  // A triggered send is the newest event, less than a minute ago.
  predicate JustSent(t: Track) {
    t.events != [] && Triggered(t.events[|t.events| - 1]) && t.clock < t.events[|t.events| - 1].at + MIN_INTERVAL
  }

  lemma SendsOnceMore(t: Track)
    requires JustFailed(t) && Retries(t)
    ensures var c := NextDecision(t, None);
      && Timely(t, c)
      && CheckpointSpec.Step(t, c).events == t.events + [Sent(t.saved + 1, 0, None, t.clock, t.decisions + 1, false)]
  {
  }

  lemma FailedMaySendAgain(start: Track, calls: seq<Call>)
    requires Inv(start) && start.events == [] && AllTimely(start, calls)
    requires JustSent(Replay(start, calls)) && JustFailed(Replay(start, calls))
    ensures MaySendAgain(start, calls, |Replay(start, calls).events| - 1)
  {
    var t := Replay(start, calls);
    var c := NextDecision(t, None);
    ReplayKeepsRetries(start, calls);
    SendsOnceMore(t);
    ReplayOneMore(start, calls, c);
    var events := Replay(start, calls + [c]).events;
    assert Triggered(events[|t.events|]) && AnotherWithinAMinute(events, |t.events| - 1);
  }

  lemma NoneWithinAMinute(every: nat, published: nat, saved: nat, clock: int, calls: seq<Call>, i: nat)
    requires published <= saved && AllTimely(Fresh(every, published, saved, clock), calls)
    requires var events := Replay(Fresh(every, published, saved, clock), calls).events;
      i < |events| && Triggered(events[i]) && events[i].ack.Some?
    ensures !AnotherWithinAMinute(Replay(Fresh(every, published, saved, clock), calls).events, i)
  {
    RunHistory(every, published, saved, clock, calls);
  }

  lemma AcknowledgedMayNotSendAgain(every: nat, published: nat, saved: nat, clock: int, calls: seq<Call>, i: nat)
    requires published <= saved
    requires var events := Replay(Fresh(every, published, saved, clock), calls).events;
      i < |events| && Triggered(events[i]) && events[i].ack.Some?
    ensures !MaySendAgain(Fresh(every, published, saved, clock), calls, i)
  {
    var start := Fresh(every, published, saved, clock);
    forall more: seq<Call> | AllTimely(start, calls + more)
      ensures var events := Replay(start, calls + more).events;
        i < |events| && events[i].Sent? && !AnotherWithinAMinute(events, i)
    {
      ReplayExtendsEvents(start, calls, more);
      NoneWithinAMinute(every, published, saved, clock, calls + more, i);
    }
  }

  lemma FreshIsSound(every: nat, published: nat, saved: nat, clock: int)
    requires published <= saved
    ensures Inv(Fresh(every, published, saved, clock)) && Fresh(every, published, saved, clock).events == []
  {
  }

  // A triggered send is the newest event of a run, less than a minute ago. Then a
  // later decision can trigger another within that minute exactly if the send was
  // answered with an error.
  lemma SendsAgainIffUnacknowledged(every: nat, published: nat, saved: nat, clock: int, calls: seq<Call>)
    requires published <= saved && AllTimely(Fresh(every, published, saved, clock), calls)
    requires JustSent(Replay(Fresh(every, published, saved, clock), calls))
    ensures var t := Replay(Fresh(every, published, saved, clock), calls);
      MaySendAgain(Fresh(every, published, saved, clock), calls, |t.events| - 1) <==> JustFailed(t)
  {
    var start := Fresh(every, published, saved, clock);
    var last := |Replay(start, calls).events| - 1;
    FreshIsSound(every, published, saved, clock);
    if JustFailed(Replay(start, calls)) {
      FailedMaySendAgain(start, calls);
    } else {
      AcknowledgedMayNotSendAgain(every, published, saved, clock, calls, last);
    }
  }

  // Two sends of one head, in the same second, at two consecutive decisions that
  // appended nothing; both may have reached the chain.
  lemma OneHeadTwice() returns (calls: seq<Call>)
    ensures AllTimely(Fresh(1, 0, 1, 0), calls)
    ensures var events := Replay(Fresh(1, 0, 1, 0), calls).events;
      && |events| == 2 && Triggered(events[0]) && Triggered(events[1])
      && events[0].n == events[1].n && events[0].root == events[1].root
      && events[0].at == events[1].at && events[1].decision == events[0].decision + 1
  {
    var t := Fresh(1, 0, 1, 0);
    var none := ConfirmAnswer(Unseen, 0, false);
    var c := Decision(Head(1, 0), 1, TriggerAnswer(none, 0, PublishAnswer(none, SendAnswer(None, 0, 0), none)));
    ReplayOneMore(t, [], c);
    ReplayOneMore(t, [c], c);
    assert [] + [c] == [c] && Replay(t, []) == t;
    calls := [c] + [c];
  }

  // The same while the log grows by one saved entry at each decision.
  lemma TwoHeadsAtOnce() returns (calls: seq<Call>)
    ensures AllTimely(Fresh(1, 0, 0, 0), calls)
    ensures var events := Replay(Fresh(1, 0, 0, 0), calls).events;
      && |events| == 2 && Triggered(events[0]) && Triggered(events[1])
      && events[0].n == 1 && events[1].n == 2
      && events[0].at == events[1].at && events[1].decision == events[0].decision + 1
  {
    var t := Fresh(1, 0, 0, 0);
    var c := NextDecision(t, None);
    ReplayOneMore(t, [], c);
    assert [] + [c] == [c] && Replay(t, []) == t;
    var d := NextDecision(Replay(t, [c]), None);
    ReplayOneMore(t, [c], d);
    calls := [c] + [d];
  }

  // ---- across a restart ----

  // Decisions up to the one that is due, all in one second.
  lemma {:induction false} CountTo(start: Track, n: nat) returns (calls: seq<Call>)
    requires start == Fresh(start.every, start.published, start.saved, start.clock) && n < start.every
    ensures |calls| == n && AllTimely(start, calls)
    ensures Replay(start, calls) == start.(since := n, decisions := n, saved := start.saved + n)
  {
    calls := [];
    if n > 0 {
      calls := CountTo(start, n - 1);
      var c := NextDecision(Replay(start, calls), None);
      ReplayOneMore(start, calls, c);
      calls := calls + [c];
    }
  }

  // A run sends, and is acknowledged, in the second it starts, after `every`
  // decisions: it does not know when the run before it last sent.
  lemma EveryRunMaySendAtOnce(every: nat, published: nat, saved: nat, clock: int) returns (calls: seq<Call>)
    requires published <= saved && every >= 1
    ensures |calls| == every && AllTimely(Fresh(every, published, saved, clock), calls)
    ensures var t := Replay(Fresh(every, published, saved, clock), calls);
      && |t.events| == 1 && Triggered(t.events[0]) && t.events[0].ack.Some?
      && t.events[0].at == clock == t.clock && t.events[0].n == saved + every == t.saved
  {
    var start := Fresh(every, published, saved, clock);
    calls := CountTo(start, every - 1);
    var c := NextDecision(Replay(start, calls), Some(0));
    ReplayOneMore(start, calls, c);
    calls := calls + [c];
  }

  predicate SendsOnce(t: Track) {
    |t.events| == 1 && Triggered(t.events[0]) && t.events[0].ack.Some?
  }

  // u's one send is less than a minute after the newest event of t.
  predicate SendsSoonAfter(u: Track, t: Track) {
    JustSent(t) && SendsOnce(u) && u.events[0].at - t.events[|t.events| - 1].at < MIN_INTERVAL
  }

  // So a restart less than a minute after any triggered send, acknowledged or
  // not, can always be followed by another within that minute, whatever record
  // it loads.
  lemma RestartForgetsTheMinute(every: nat, published: nat, saved: nat, clock: int, first: seq<Call>,
                                loaded: nat, reloaded: nat, now: int)
    returns (second: seq<Call>)
    requires published <= saved && every >= 1
    requires AllTimely(Fresh(every, published, saved, clock), first)
    requires var t := Replay(Fresh(every, published, saved, clock), first);
      && JustSent(t) && Restartable(t, loaded, reloaded, now)
      && now < t.events[|t.events| - 1].at + MIN_INTERVAL
    ensures var t := Replay(Fresh(every, published, saved, clock), first);
      && AllTimely(Fresh(every, loaded, reloaded, now), second)
      && SendsSoonAfter(Replay(Fresh(every, loaded, reloaded, now), second), t)
  {
    second := EveryRunMaySendAtOnce(every, loaded, reloaded, now);
  }

  // Such a pair of runs, both sends acknowledged, in the same second.
  lemma TwoRunsInOneSecond() returns (first: seq<Call>, second: seq<Call>)
    ensures AllTimely(Fresh(1, 0, 1, 0), first)
    ensures var t := Replay(Fresh(1, 0, 1, 0), first);
      && Restartable(t, t.recorded, t.saved, t.clock)
      && AllTimely(Fresh(1, t.recorded, t.saved, t.clock), second)
      && var u := Replay(Fresh(1, t.recorded, t.saved, t.clock), second);
         SendsOnce(t) && SendsOnce(u) && u.events[0].at == t.events[0].at && u.events[0].n > t.events[0].n
  {
    first := EveryRunMaySendAtOnce(1, 0, 1, 0);
    var t := Replay(Fresh(1, 0, 1, 0), first);
    ReplayKeepsInv(Fresh(1, 0, 1, 0), first);
    second := EveryRunMaySendAtOnce(1, t.recorded, t.saved, t.clock);
  }
}
