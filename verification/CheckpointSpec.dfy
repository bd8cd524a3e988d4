// What one gateway run's checkpointer does, as functions of its state and of the
// answers it gets, and what holds over every sequence of such steps.
module CheckpointSpec {
  import opened Wrappers
  import opened Files
  import opened Machine

  const PENDING_TIMEOUT := 600   // seconds
  const MIN_INTERVAL := 60

  datatype Pending = Pending(n: nat, root: Root, tx: TxHash, prev: nat, sent: int)

  datatype Event =
    | Sent(n: nat, root: Root, ack: Option<TxHash>, at: int, decision: nat, shutdown: bool)
    | Mined(n: nat, tx: TxHash)
    | Dropped(n: nat, tx: TxHash, reverted: bool, at: int)
    | Recorded(n: nat, root: Root, tx: TxHash, wrote: bool)   // a record was attempted; wrote says what it answered

  // The checkpointer's fields, then the history of its run: events, decisions
  // seen, acknowledged sends that decisions triggered, the size of the newest
  // head recorded (before this run or seen mined in it), the newest saved log
  // size, and the latest time read.
  datatype Track = Track(
    every: nat, since: nat, published: nat, pending: Option<Pending>, last: Option<int>,
    events: seq<Event>, decisions: nat, acks: nat, recorded: nat, saved: nat, clock: int)

  function Fresh(every: nat, published: nat, saved: nat, clock: int): Track {
    Track(every, 0, published, None, None, [], 0, 0, published, saved, clock)
  }

  // ---- confirm ----

  // `wrote` is what writing the record answered, if it came to that.
  datatype ConfirmAnswer = ConfirmAnswer(receipt: Receipt, now: int, wrote: bool)

  function Drop(t: Track, p: Pending, reverted: bool, at: int): Track {
    t.(pending := None, published := p.prev, events := t.events + [Dropped(p.n, p.tx, reverted, at)])
  }

  function Confirm(t: Track, a: ConfirmAnswer): Track {
    if t.pending.None? then t
    else
      var p := t.pending.value;
      match a.receipt
      case Unseen =>
        if a.now - p.sent > PENDING_TIMEOUT then Drop(t, p, false, a.now).(clock := a.now)
        else t.(clock := a.now)
      case Reverted => Drop(t, p, true, a.now)
      case Success =>
        t.(pending := None, recorded := p.n,
           events := t.events + [Mined(p.n, p.tx)] + [Recorded(p.n, p.root, p.tx, a.wrote)])
  }

  // ---- publish ----

  datatype SendAnswer = SendAnswer(ack: Option<TxHash>, sentAt: int, lastAt: int)

  // What publish decides once it has looked for the pending checkpoint.
  datatype Verdict = Nothing | Deferred | Unsaved | Go

  function Judge(t: Track, h: Head): Verdict {
    if h.n <= 0 || h.n == t.published then Nothing
    else if t.pending.Some? then Deferred
    else if h.n != t.saved then Unsaved
    else Go
  }

  // The send itself. An error leaves the state alone, but the head may be out.
  function Send(t: Track, h: Head, a: SendAnswer, shutdown: bool): Track {
    match a.ack
    case None => t.(events := t.events + [Sent(h.n, h.root, None, t.clock, t.decisions, shutdown)])
    case Some(tx) =>
      t.(events := t.events + [Sent(h.n, h.root, Some(tx), a.sentAt, t.decisions, shutdown)],
         pending := Some(Pending(h.n, h.root, tx, t.published, a.sentAt)),
         published := h.n, last := Some(a.lastAt), clock := a.lastAt,
         acks := if shutdown then t.acks else t.acks + 1)
  }

  datatype PublishAnswer = PublishAnswer(before: ConfirmAnswer, send: SendAnswer, after: ConfirmAnswer)

  // Once the pending checkpoint has been looked for.
  function PublishConfirmed(t: Track, h: Head, wait: bool, send: SendAnswer, after: ConfirmAnswer): (r: (Track, bool)) {
    var v := Judge(t, h);
    if v != Go then (t, v == Nothing)
    else
      var t' := Send(t, h, send, wait);
      if send.ack.None? then (t', false)
      else if wait then (Confirm(t', after), true)
      else (t', true)
  }

  function Publish(t: Track, h: Head, wait: bool, a: PublishAnswer): (r: (Track, bool)) {
    PublishConfirmed(Confirm(t, a.before), h, wait, a.send, a.after)
  }

  // ---- maybePublish ----

  datatype TriggerAnswer = TriggerAnswer(first: ConfirmAnswer, now: int, publish: PublishAnswer)

  predicate Due(t: Track, now: int) {
    t.since >= t.every && (t.last.None? || now - t.last.value >= MIN_INTERVAL)
  }

  // One more decision has been recorded.
  function Decided(t: Track, saved: nat): Track {
    t.(since := t.since + 1, decisions := t.decisions + 1, saved := saved)
  }

  // Enough decisions have been recorded: publish, unless it is too soon.
  function PublishIfSpaced(t: Track, h: Head, now: int, a: PublishAnswer): Track {
    if !Due(t, now) then t.(clock := now)
    else
      var r := Publish(t.(clock := now), h, false, a);
      if r.1 then r.0.(since := 0) else r.0
  }

  function MaybePublish(t: Track, h: Head, saved: nat, a: TriggerAnswer): Track {
    var t1 := Decided(Confirm(t, a.first), saved);
    if t1.since < t1.every then t1 else PublishIfSpaced(t1, h, a.now, a.publish)
  }

  // publishNow, at clean shutdown.
  function PublishNow(t: Track, h: Head, saved: nat, a: PublishAnswer): Track {
    Publish(t.(saved := saved), h, true, a).0
  }

  // ---- the world's side: sizes and clocks only grow ----

  predicate ConfirmTimely(t: Track, a: ConfirmAnswer) {
    t.pending.Some? && a.receipt.Unseen? ==> a.now >= t.clock
  }

  predicate SendTimely(t: Track, a: SendAnswer) {
    a.ack.Some? ==> t.clock <= a.sentAt <= a.lastAt
  }

  predicate ConfirmedTimely(t: Track, h: Head, wait: bool, send: SendAnswer, after: ConfirmAnswer) {
    && t.saved <= h.n
    && (Judge(t, h) == Go ==> SendTimely(t, send) && (wait ==> ConfirmTimely(Send(t, h, send, wait), after)))
  }

  predicate PublishTimely(t: Track, h: Head, wait: bool, a: PublishAnswer) {
    ConfirmTimely(t, a.before) && ConfirmedTimely(Confirm(t, a.before), h, wait, a.send, a.after)
  }

  predicate SpacedTimely(t: Track, h: Head, now: int, a: PublishAnswer) {
    t.clock <= now && (Due(t, now) ==> PublishTimely(t.(clock := now), h, false, a))
  }

  predicate TriggerTimely(t: Track, h: Head, saved: nat, a: TriggerAnswer) {
    && ConfirmTimely(t, a.first)
    && var t1 := Decided(Confirm(t, a.first), saved);
    && t.saved <= saved <= h.n
    && (t1.since >= t1.every ==> SpacedTimely(t1, h, a.now, a.publish))
  }

  // ---- what the history says was done ----

  // The heads handed to the endpoint, and the records written or attempted, in
  // order.
  function SentHeads(events: seq<Event>): seq<Head> {
    if events == [] then []
    else
      var e := events[|events| - 1];
      SentHeads(events[..|events| - 1]) + (if e.Sent? then [Head(e.n, e.root)] else [])
  }

  function RecordsOf(events: seq<Event>): seq<Content> {
    if events == [] then []
    else
      var e := events[|events| - 1];
      RecordsOf(events[..|events| - 1]) + (if e.Recorded? then [Record(e.n, e.root, e.tx)] else [])
  }

  lemma OneMoreEvent(events: seq<Event>, e: Event)
    ensures SentHeads(events + [e]) == SentHeads(events) + (if e.Sent? then [Head(e.n, e.root)] else [])
    ensures RecordsOf(events + [e]) == RecordsOf(events) + (if e.Recorded? then [Record(e.n, e.root, e.tx)] else [])
  {
    assert (events + [e])[..|events|] == events;
  }

  lemma MinedRecords(t: Track, p: Pending, wrote: bool)
    ensures var events := t.events + [Mined(p.n, p.tx)] + [Recorded(p.n, p.root, p.tx, wrote)];
      SentHeads(events) == SentHeads(t.events) && RecordsOf(events) == RecordsOf(t.events) + [Record(p.n, p.root, p.tx)]
  {
    OneMoreEvent(t.events, Mined(p.n, p.tx));
    OneMoreEvent(t.events + [Mined(p.n, p.tx)], Recorded(p.n, p.root, p.tx, wrote));
  }

  lemma ConfirmRecords(t: Track, a: ConfirmAnswer)
    ensures SentHeads(Confirm(t, a).events) == SentHeads(t.events)
    ensures RecordsOf(Confirm(t, a).events) == RecordsOf(t.events) +
      if t.pending.Some? && a.receipt.Success? then
        [Record(t.pending.value.n, t.pending.value.root, t.pending.value.tx)]
      else []
  {
    if t.pending.Some? && a.receipt.Success? {
      MinedRecords(t, t.pending.value, a.wrote);
    } else if t.pending.Some? {
      var p := t.pending.value;
      OneMoreEvent(t.events, Dropped(p.n, p.tx, a.receipt.Reverted?, a.now));
    }
  }

  lemma SendRecords(t: Track, h: Head, a: SendAnswer, shutdown: bool)
    ensures SentHeads(Send(t, h, a, shutdown).events) == SentHeads(t.events) + [h]
    ensures RecordsOf(Send(t, h, a, shutdown).events) == RecordsOf(t.events)
  {
    var e := Send(t, h, a, shutdown).events[|t.events|];
    OneMoreEvent(t.events, e);
  }

  // ---- the invariant ----

  predicate AckedBy(e: Event, p: Pending) {
    e.Sent? && e.n == p.n && e.root == p.root && e.ack == Some(p.tx)
  }

  ghost predicate WasAcked(events: seq<Event>, p: Pending) {
    exists i :: 0 <= i < |events| && AckedBy(events[i], p)
  }

  // A send that a decision triggered, acknowledged or not.
  predicate Triggered(e: Event) {
    e.Sent? && !e.shutdown
  }

  ghost predicate StateInv(t: Track) {
    && t.recorded <= t.published <= t.saved
    && (t.pending.None? ==> t.published == t.recorded)
    && (t.pending.Some? ==>
          var p := t.pending.value;
          p.n == t.published && t.recorded == p.prev < p.n && WasAcked(t.events, p))
    && t.acks * t.every + t.since <= t.decisions
    && (t.last.Some? ==> t.last.value <= t.clock)
  }

  // Nothing in the history runs ahead of the state.
  ghost predicate Bounded(t: Track, e: Event) {
    match e
    case Mined(n, _) => n <= t.recorded
    case Recorded(n, _, _, _) => n <= t.recorded
    case Dropped(_, _, _, _) => true
    case Sent(_, _, ack, at, d, shutdown) =>
      ack.Some? && !shutdown ==>
        d + t.since <= t.decisions && t.last.Some? && at <= t.last.value
  }

  // An earlier event and a later one.
  ghost predicate Ordered(every: nat, e: Event, f: Event) {
    && ((e.Mined? || e.Recorded?) && (f.Sent? || f.Mined?) ==> e.n < f.n)
    && (e.Recorded? && f.Recorded? ==> e.n < f.n)
    && (Triggered(e) && e.ack.Some? && Triggered(f) ==> f.decision >= e.decision + every && f.at - e.at >= MIN_INTERVAL)
  }

  // A record names a transaction seen mined, of a head whose send was acknowledged.
  ghost predicate Justified(events: seq<Event>, j: nat)
    requires j < |events|
  {
    events[j].Recorded? ==>
      var r := events[j];
      && j > 0 && events[j - 1] == Mined(r.n, r.tx)
      && WasAcked(events[..j], Pending(r.n, r.root, r.tx, 0, 0))
  }

  ghost predicate HistoryInv(t: Track) {
    && (forall i: nat :: i < |t.events| ==> Bounded(t, t.events[i]))
    && (forall i, j :: 0 <= i < j < |t.events| ==> Ordered(t.every, t.events[i], t.events[j]))
    && (forall j: nat :: j < |t.events| ==> Justified(t.events, j))
  }

  ghost predicate Inv(t: Track) {
    StateInv(t) && HistoryInv(t)
  }

  lemma WasAckedExtends(events: seq<Event>, e: Event, p: Pending)
    requires WasAcked(events, p)
    ensures WasAcked(events + [e], p)
  {
    var i :| 0 <= i < |events| && AckedBy(events[i], p);
    assert AckedBy((events + [e])[i], p);
  }

  // One event more: it is in order with every earlier one, and justified.
  lemma AppendKeepsHistory(t: Track, e: Event, t': Track)
    requires HistoryInv(t) && t'.events == t.events + [e] && t'.every == t.every
    requires forall i: nat :: i < |t.events| ==> Bounded(t', t.events[i]) && Ordered(t.every, t.events[i], e)
    requires Bounded(t', e) && Justified(t'.events, |t.events|)
    ensures HistoryInv(t')
  {
    forall j: nat | j < |t'.events|
      ensures Justified(t'.events, j)
    {
      if j < |t.events| {
        assert Justified(t.events, j);
        assert t'.events[..j] == t.events[..j];
      }
    }
  }

  lemma SuccessKeepsInv(t: Track, p: Pending, wrote: bool)
    requires Inv(t) && t.pending == Some(p)
    ensures Inv(Confirm(t, ConfirmAnswer(Success, 0, wrote)))
  {
    var mined, rec := Mined(p.n, p.tx), Recorded(p.n, p.root, p.tx, wrote);
    var t1 := t.(recorded := p.n, events := t.events + [mined]);
    var t2 := t1.(pending := None, events := t1.events + [rec]);
    forall i: nat | i < |t.events|
      ensures Bounded(t1, t.events[i]) && Ordered(t.every, t.events[i], mined)
      ensures Bounded(t2, t.events[i]) && Ordered(t.every, t.events[i], rec)
    {
      assert Bounded(t, t.events[i]);
    }
    AppendKeepsHistory(t, mined, t1);
    WasAckedExtends(t.events, mined, p);
    assert WasAcked(t1.events, Pending(p.n, p.root, p.tx, 0, 0)) by {
      var i :| 0 <= i < |t1.events| && AckedBy(t1.events[i], p);
      assert AckedBy(t1.events[i], Pending(p.n, p.root, p.tx, 0, 0));
    }
    assert t2.events[..|t1.events|] == t1.events;
    AppendKeepsHistory(t1, rec, t2);
  }

  // A track with the same history and every bound no tighter.
  lemma SameHistory(t: Track, t': Track)
    requires HistoryInv(t) && t'.events == t.events && t'.every == t.every && t'.recorded == t.recorded
    requires t'.since - t.since <= t'.decisions - t.decisions && t'.last == t.last
    ensures HistoryInv(t')
  {
    forall i: nat | i < |t.events|
      ensures Bounded(t', t.events[i])
    {
      assert Bounded(t, t.events[i]);
    }
  }

  lemma DropKeepsInv(t: Track, a: ConfirmAnswer)
    requires Inv(t) && ConfirmTimely(t, a) && t.pending.Some? && !a.receipt.Success?
    requires Confirm(t, a).pending.None?
    ensures Inv(Confirm(t, a)) && Confirm(t, a).clock >= t.clock
  {
    var t' := Confirm(t, a);
    forall i: nat | i < |t.events|
      ensures Bounded(t', t.events[i])
    {
      assert Bounded(t, t.events[i]);
    }
    AppendKeepsHistory(t, t'.events[|t.events|], t');
  }

  lemma ConfirmKeepsInv(t: Track, a: ConfirmAnswer)
    requires Inv(t) && ConfirmTimely(t, a)
    ensures Inv(Confirm(t, a)) && Confirm(t, a).clock >= t.clock
  {
    if t.pending.Some? && a.receipt.Success? {
      SuccessKeepsInv(t, t.pending.value, a.wrote);
    } else if t.pending.Some? && Confirm(t, a).pending.None? {
      DropKeepsInv(t, a);
    } else {
      SameHistory(t, Confirm(t, a));
    }
  }

  lemma ConfirmKeepsDue(t: Track, a: ConfirmAnswer)
    requires ConfirmTimely(t, a) && Due(t, t.clock)
    ensures var t' := Confirm(t, a);
      Due(t', t'.clock)
  {
  }

  lemma SendKeepsInv(t: Track, h: Head, a: SendAnswer, shutdown: bool)
    requires Inv(t) && Judge(t, h) == Go && t.published <= h.n
    requires SendTimely(t, a) && (!shutdown ==> Due(t, t.clock))
    ensures var t' := Send(t, h, a, shutdown);
      Inv(if a.ack.Some? && !shutdown then t'.(since := 0) else t')
  {
    var e := Sent(h.n, h.root, a.ack, if a.ack.Some? then a.sentAt else t.clock, t.decisions, shutdown);
    var s := Send(t, h, a, shutdown);
    var t' := if a.ack.Some? && !shutdown then s.(since := 0) else s;
    forall i: nat | i < |t.events|
      ensures Bounded(t', t.events[i]) && Ordered(t.every, t.events[i], e)
    {
      assert Bounded(t, t.events[i]);
    }
    AppendKeepsHistory(t, e, t');
    if a.ack.Some? {
      assert AckedBy(t'.events[|t.events|], t'.pending.value);
      assert (t.acks + 1) * t.every == t.acks * t.every + t.every;
    }
  }

  lemma PublishKeepsInv(t: Track, h: Head, wait: bool, a: PublishAnswer)
    requires Inv(t) && PublishTimely(t, h, wait, a) && (!wait ==> Due(t, t.clock))
    ensures var r := Publish(t, h, wait, a);
      Inv(if r.1 && !wait then r.0.(since := 0) else r.0)
  {
    ConfirmKeepsInv(t, a.before);
    var t1 := Confirm(t, a.before);
    if Judge(t1, h) == Go {
      SendKeepsInv(t1, h, a.send, wait);
      if a.send.ack.Some? && wait {
        ConfirmKeepsInv(Send(t1, h, a.send, wait), a.after);
      }
    } else {
      SameHistory(t1, t1.(since := 0));
    }
  }

  lemma MaybePublishKeepsInv(t: Track, h: Head, saved: nat, a: TriggerAnswer)
    requires Inv(t) && TriggerTimely(t, h, saved, a)
    ensures Inv(MaybePublish(t, h, saved, a))
  {
    ConfirmKeepsInv(t, a.first);
    var t0 := Confirm(t, a.first);
    var t1 := Decided(t0, saved);
    SameHistory(t0, t1);
    SameHistory(t1, t1.(clock := a.now));
    if Due(t1, a.now) {
      PublishKeepsInv(t1.(clock := a.now), h, false, a.publish);
    }
  }

  lemma PublishNowKeepsInv(t: Track, h: Head, saved: nat, a: PublishAnswer)
    requires Inv(t) && t.saved <= saved && PublishTimely(t.(saved := saved), h, true, a)
    ensures Inv(PublishNow(t, h, saved, a))
  {
    SameHistory(t, t.(saved := saved));
    PublishKeepsInv(t.(saved := saved), h, true, a);
  }

  lemma OneDecision(t: Track, h: Head, saved: nat, a: TriggerAnswer)
    ensures MaybePublish(t, h, saved, a).decisions == t.decisions + 1
  {
  }

  // ---- a whole run: decisions, then a clean shutdown ----

  datatype Call =
    | Decision(head: Head, saved: nat, trigger: TriggerAnswer)
    | Shutdown(head: Head, saved: nat, publish: PublishAnswer)

  function Step(t: Track, c: Call): Track {
    match c
    case Decision(h, saved, a) => MaybePublish(t, h, saved, a)
    case Shutdown(h, saved, a) => PublishNow(t, h, saved, a)
  }

  predicate Timely(t: Track, c: Call) {
    match c
    case Decision(h, saved, a) => TriggerTimely(t, h, saved, a)
    case Shutdown(h, saved, a) => t.saved <= saved && PublishTimely(t.(saved := saved), h, true, a)
  }

  function Replay(t: Track, calls: seq<Call>): Track {
    if calls == [] then t else Step(Replay(t, calls[..|calls| - 1]), calls[|calls| - 1])
  }

  predicate AllTimely(t: Track, calls: seq<Call>) {
    calls == [] ||
    (AllTimely(t, calls[..|calls| - 1]) && Timely(Replay(t, calls[..|calls| - 1]), calls[|calls| - 1]))
  }

  lemma StepKeepsInv(t: Track, c: Call)
    requires Inv(t) && Timely(t, c)
    ensures Inv(Step(t, c))
  {
    match c
    case Decision(h, saved, a) => MaybePublishKeepsInv(t, h, saved, a);
    case Shutdown(h, saved, a) => PublishNowKeepsInv(t, h, saved, a);
  }

  lemma StepKeepsEvery(t: Track, c: Call)
    ensures Step(t, c).every == t.every
  {
  }

  lemma {:induction false} ReplayKeepsInv(t: Track, calls: seq<Call>)
    requires Inv(t) && AllTimely(t, calls)
    ensures Inv(Replay(t, calls)) && Replay(t, calls).every == t.every
  {
    if calls == [] {
    } else {
      var front, c := calls[..|calls| - 1], calls[|calls| - 1];
      var u := Replay(t, front);
      ReplayKeepsInv(t, front);
      StepKeepsInv(u, c);
      StepKeepsEvery(u, c);
      assert Replay(t, calls) == Step(u, c);
    }
  }

  // Over any run from a loaded record: the recorded sizes strictly increase and
  // start above the loaded one, each names a transaction seen mined of a head
  // whose send was acknowledged; every send is larger than every head already
  // seen mined; and a send triggered by a decision is at least `every` decisions
  // and a minute after every acknowledged one before it.
  lemma RunHistory(every: nat, published: nat, saved: nat, clock: int, calls: seq<Call>)
    requires published <= saved && AllTimely(Fresh(every, published, saved, clock), calls)
    ensures var t := Replay(Fresh(every, published, saved, clock), calls);
      && Inv(t) && t.every == every
      && (forall i, j :: 0 <= i < j < |t.events| ==> Ordered(every, t.events[i], t.events[j]))
      && (forall j: nat :: j < |t.events| ==> Justified(t.events, j))
      && t.acks * every <= t.decisions
  {
    ReplayKeepsInv(Fresh(every, published, saved, clock), calls);
  }

  // ---- replaying a longer run ----

  lemma ReplayOneMore(t: Track, calls: seq<Call>, c: Call)
    ensures Replay(t, calls + [c]) == Step(Replay(t, calls), c)
    ensures AllTimely(t, calls + [c]) <==> AllTimely(t, calls) && Timely(Replay(t, calls), c)
  {
    assert (calls + [c])[..|calls|] == calls;
  }

  lemma PublishExtendsEvents(t: Track, h: Head, wait: bool, a: PublishAnswer)
    ensures t.events <= Publish(t, h, wait, a).0.events
  {
    var t1 := Confirm(t, a.before);
    assert t.events <= t1.events;
    var t2 := Send(t1, h, a.send, wait);
    assert t1.events <= t2.events <= Confirm(t2, a.after).events;
  }

  lemma StepExtendsEvents(t: Track, c: Call)
    ensures t.events <= Step(t, c).events
  {
    match c
    case Decision(h, saved, a) =>
      var t1 := Decided(Confirm(t, a.first), saved).(clock := a.now);
      assert t.events <= t1.events;
      PublishExtendsEvents(t1, h, false, a.publish);
    case Shutdown(h, saved, a) =>
      PublishExtendsEvents(t.(saved := saved), h, true, a);
  }

  lemma {:induction false} ReplayExtendsEvents(t: Track, calls: seq<Call>, more: seq<Call>)
    ensures Replay(t, calls).events <= Replay(t, calls + more).events
  {
    if more == [] {
      assert calls + more == calls;
    } else {
      var front, c := more[..|more| - 1], more[|more| - 1];
      assert calls + more == (calls + front) + [c];
      ReplayExtendsEvents(t, calls, front);
      ReplayOneMore(t, calls + front, c);
      StepExtendsEvents(Replay(t, calls + front), c);
    }
  }

  // A later run of the same log: the record it loads names no more entries than
  // the log it loads, which has not lost any, and time has not run back. Which
  // record it is depends on how the last attempts to write it ended.
  predicate Restartable(t: Track, loaded: nat, saved: nat, now: int) {
    loaded <= saved && t.saved <= saved && t.clock <= now
  }
}
