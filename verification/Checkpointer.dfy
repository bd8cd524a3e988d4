// The checkpointer as the class it is. Each method's new state is the one
// CheckpointSpec gives for the answers it got, so the run invariants proved
// there hold of it, and it hands the endpoint and the record file nothing the
// transition system does not allow.
module Checkpointers {
  import opened Wrappers
  import opened Files
  import opened Machine
  import opened Deeds
  import opened Gateway
  import opened CheckpointSpec
  import opened Plans

  class Checkpointer {
    const st: LogState
    const w: World
    const every: nat
    const loaded: nat        // the recorded size it started from
    var since: nat
    var published: nat
    var pending: Option<Pending>
    var last: Option<int>
    ghost var track: Track

    // The first n entries of the log are a head this run sent, or the one that was
    // recorded before it.
    ghost predicate Known(n: nat)
      reads this, st, st.os
    {
      n == loaded || (n <= |st.log| && Head(n, st.os.env.rootOf(st.log[..n])) in st.os.proc.heads)
    }

    ghost predicate KnownPending(p: Pending)
      reads this, st, st.os
    {
      && Known(p.prev) && p.n <= |st.log| && p.root == st.os.env.rootOf(st.log[..p.n])
      && Head(p.n, p.root) in st.os.proc.heads
    }

    // The fields are the track's, every record it says was attempted was, and the
    // gateway is idle.
    ghost predicate Linked()
      reads this, st, st.os, w
    {
      && track.every == every && track.since == since && track.published == published
      && track.pending == pending && track.last == last && track.clock <= w.time
      && track.saved <= st.saved <= |st.log|
      && st.Mirrors() && st.os.proc.phase.Running? && st.os.proc.job.Idle?
      && Known(published) && (pending.Some? ==> KnownPending(pending.value))
      && RecordWrites(st.os.deeds) == RecordsOf(track.events)
    }

    // And every head it says was sent was.
    ghost predicate Tied()
      reads this, st, st.os, w
    {
      Linked() && Sends(st.os.deeds) == SentHeads(track.events)
    }

    // The whole log has just been handed to the endpoint, which the track does not
    // say yet.
    ghost predicate HandedOver(h: Head)
      reads this, st, st.os, w
    {
      && Linked() && Sends(st.os.deeds) == SentHeads(track.events) + [h]
      && h == Head(|st.log|, st.os.env.rootOf(st.log[..|st.log|])) && h in st.os.proc.heads
    }

    ghost predicate Valid()
      reads this, st, st.os, w
    {
      Tied() && Inv(track)
    }

    // Valid but for `since`, which the trigger is about to reset.
    ghost predicate Sound()
      reads this, st, st.os, w
    {
      Tied() && Inv(track.(since := 0))
    }

    // It starts from the recorded head.
    constructor (st: LogState, w: World, every: nat)
      requires st.Mirrors() && st.os.proc.phase.Running? && st.os.proc.job.Idle? && st.published <= st.saved <= |st.log|
      requires PlainSince([], st.os.deeds)
      ensures this.st == st && this.w == w && this.every == every && loaded == st.published && Valid()
      ensures track == Fresh(every, st.published, st.saved, w.time)
    {
      this.st, this.w, this.every, loaded := st, w, every, st.published;
      since, published, pending, last := 0, st.published, None, None;
      track := Fresh(every, st.published, st.saved, w.time);
      PlainKeepsCheckpoints([], st.os.deeds);
    }

    // Not seen: it is given up after the timeout.
    method GiveUpIfLate(p: Pending) returns (ghost a: ConfirmAnswer)
      requires Valid() && pending == Some(p)
      modifies this, w`time, w`readings
      ensures Valid()
      ensures a.receipt.Unseen? && ConfirmTimely(old(track), a) && track == CheckpointSpec.Confirm(old(track), a)
    {
      var now := w.Now();
      a := ConfirmAnswer(Unseen, now, false);
      ConfirmKeepsInv(track, a);
      ConfirmRecords(track, a);
      if now - p.sent > PENDING_TIMEOUT {
        pending := None;
        published := p.prev;
      }
      track := CheckpointSpec.Confirm(track, a);
    }

    // Reverted: its head is to be sent again.
    method GiveUp(p: Pending) returns (ghost a: ConfirmAnswer)
      requires Valid() && pending == Some(p)
      modifies this
      ensures Valid()
      ensures a.receipt.Reverted? && track == CheckpointSpec.Confirm(old(track), a)
    {
      a := ConfirmAnswer(Reverted, w.time, false);
      ConfirmKeepsInv(track, a);
      ConfirmRecords(track, a);
      pending := None;
      published := p.prev;
      track := CheckpointSpec.Confirm(track, a);
    }

    // Mined: it is recorded.
    method RecordMined(p: Pending) returns (ghost a: ConfirmAnswer)
      requires Valid() && pending == Some(p)
      modifies this, st.os`proc, st.os`deeds
      ensures Valid()
      ensures a.receipt.Success? && track == CheckpointSpec.Confirm(old(track), a) && st.os.proc == old(st.os.proc)
      ensures Wrote(old(st.os.deeds), st.os.deeds, RecordFile(st.cfg.log), Record(p.n, p.root, p.tx), a.wrote)
    {
      pending := None;
      ghost var before := st.os.deeds;
      var wrote := SaveCheckpointHead(st.os, st.cfg.log, p.n, p.root, p.tx);
      WroteRecordDeeds(before, st.os.deeds, st.cfg.log, Record(p.n, p.root, p.tx), wrote);
      a := ConfirmAnswer(Success, w.time, wrote);
      ConfirmKeepsInv(track, a);
      ConfirmRecords(track, a);
      track := CheckpointSpec.Confirm(track, a);
    }

    method Confirm() returns (ghost a: ConfirmAnswer)
      requires Valid()
      modifies this, st.os`proc, st.os`deeds, w`time, w`readings, w`receipts
      ensures Valid()
      ensures ConfirmTimely(old(track), a) && track == CheckpointSpec.Confirm(old(track), a)
      ensures st.os.proc.heads == old(st.os.proc.heads)
      // The pending transaction is looked for, and what is found is the answer.
      ensures w.receipts == old(w.receipts) + (if old(pending).None? then [] else [(old(pending).value.tx, a.receipt)])
      // A mined checkpoint is recorded, once, and nothing else is written.
      ensures if old(pending).Some? && a.receipt.Success? then
                var p := old(pending).value;
                Wrote(old(st.os.deeds), st.os.deeds, RecordFile(st.cfg.log), Record(p.n, p.root, p.tx), a.wrote)
              else st.os.deeds == old(st.os.deeds)
    {
      a := ConfirmAnswer(Unseen, w.time, false);
      if pending.None? {
        return;
      }
      var receipt := w.LookFor(pending.value.tx);
      match receipt
      case Unseen => a := GiveUpIfLate(pending.value);
      case Reverted => a := GiveUp(pending.value);
      case Success => a := RecordMined(pending.value);
    }

    // The send was answered with an error: the head may be out all the same.
    method Unacknowledged(h: Head, shutdown: bool) returns (ghost a: SendAnswer)
      requires HandedOver(h) && Judge(track, h) == Go
      modifies this`track
      ensures Tied() && a.ack.None? && track == CheckpointSpec.Send(old(track), h, a, shutdown)
    {
      a := SendAnswer(None, 0, 0);
      SendRecords(track, h, a, shutdown);
      track := CheckpointSpec.Send(track, h, a, shutdown);
    }

    method Acknowledged(h: Head, tx: TxHash, shutdown: bool) returns (ghost a: SendAnswer)
      requires HandedOver(h) && Judge(track, h) == Go
      modifies this, w`time, w`readings
      ensures Tied() && a.ack == Some(tx) && SendTimely(old(track), a)
      ensures track == CheckpointSpec.Send(old(track), h, a, shutdown)
    {
      var sent := w.Now();
      pending := Some(Pending(h.n, h.root, tx, published, sent));
      published := h.n;
      var now := w.Now();
      last := Some(now);
      a := SendAnswer(Some(tx), sent, now);
      SendRecords(track, h, a, shutdown);
      track := CheckpointSpec.Send(track, h, a, shutdown);
    }

    method HandOver(h: Head) returns (ack: Option<TxHash>)
      requires Valid() && Judge(track, h) == Go && track.saved == st.saved
      requires h == Head(|st.log|, st.os.env.rootOf(st.log))
      modifies st.os`proc, st.os`deeds
      ensures HandedOver(h) && Known(|st.log|)
    {
      assert st.log[..|st.log|] == st.log;
      OneMoreDeed(st.os.deeds, Did(Effect.Send(h)));
      ack := st.os.SendHead(h);
    }

    method SendHead(h: Head, shutdown: bool) returns (ok: bool, ghost a: SendAnswer)
      requires Valid() && Judge(track, h) == Go && track.saved == st.saved
      requires h == Head(|st.log|, st.os.env.rootOf(st.log)) && (!shutdown ==> Due(track, track.clock))
      modifies this, st.os`proc, st.os`deeds, w`time, w`readings, w`receipts
      ensures ok == a.ack.Some?
      ensures SendTimely(old(track), a) && track == CheckpointSpec.Send(old(track), h, a, shutdown)
      ensures a.ack.None? || shutdown ==> Valid()
      ensures a.ack.Some? && !shutdown ==> Sound()
      ensures Known(|st.log|)
    {
      var ack := HandOver(h);
      if ack.None? {
        a := Unacknowledged(h, shutdown);
      } else {
        a := Acknowledged(h, ack.value, shutdown);
      }
      ok := ack.Some?;
      SendKeepsInv(old(track), h, a, shutdown);
    }

    // The whole log, if it is saved, has been sent or was recorded, or waits for an
    // earlier checkpoint that is still in flight.
    ghost predicate Published()
      reads this, st, st.os
    {
      var n := |st.log|;
      n == 0 || st.saved != n || Known(n) || (pending.Some? && pending.value.n < n)
    }

    // The pending checkpoint has been looked for.
    method PublishConfirmed(wait: bool) returns (ok: bool, ghost send: SendAnswer, ghost after: ConfirmAnswer)
      requires Valid() && track.saved == st.saved && (!wait ==> Due(track, track.clock))
      modifies this, st.os`proc, st.os`deeds, w`time, w`readings, w`receipts
      ensures var h := Head(|st.log|, st.os.env.rootOf(st.log));
        && ConfirmedTimely(old(track), h, wait, send, after)
        && (track, ok) == CheckpointSpec.PublishConfirmed(old(track), h, wait, send, after)
      ensures wait || !ok ==> Valid()
      ensures !wait && ok ==> Sound()
      ensures Published()
    {
      var h := Head(|st.log|, st.os.env.rootOf(st.log));
      send, after := SendAnswer(None, 0, 0), ConfirmAnswer(Unseen, 0, false);
      if h.n <= 0 || h.n == published {
        SameHistory(track, track.(since := 0));
        return true, send, after;
      }
      if pending.Some? {
        return false, send, after;
      }
      if h.n != st.saved {
        return false, send, after;
      }
      ok, send := SendHead(h, wait);
      if ok && wait {
        after := Confirm();
      }
    }

    method Publish(wait: bool) returns (ok: bool, ghost a: PublishAnswer)
      requires Valid() && track.saved == st.saved && (!wait ==> Due(track, track.clock))
      modifies this, st.os`proc, st.os`deeds, w`time, w`readings, w`receipts
      ensures var h := Head(|st.log|, st.os.env.rootOf(st.log));
        && PublishTimely(old(track), h, wait, a)
        && (track, ok) == CheckpointSpec.Publish(old(track), h, wait, a)
      ensures wait || !ok ==> Valid()
      ensures !wait && ok ==> Sound()
      ensures Published()
    {
      ghost var before := Confirm();
      if !wait {
        ConfirmKeepsDue(old(track), before);
      }
      ghost var send, after;
      ok, send, after := PublishConfirmed(wait);
      a := PublishAnswer(before, send, after);
    }

    method ReadClock() returns (now: int)
      requires Valid()
      modifies this`track, w`time, w`readings
      ensures Valid() && now >= old(track.clock) && track == old(track).(clock := now)
    {
      now := w.Now();
      SameHistory(track, track.(clock := now));
      track := track.(clock := now);
    }

    // Enough decisions have been recorded: publish, unless the last checkpoint
    // is too recent.
    method PublishIfSpaced() returns (ghost at: int, ghost a: PublishAnswer)
      requires Valid() && since >= every && track.saved == st.saved
      modifies this, st.os`proc, st.os`deeds, w`time, w`readings, w`receipts
      ensures Valid()
      ensures var h := Head(|st.log|, st.os.env.rootOf(st.log));
        SpacedTimely(old(track), h, at, a) && track == CheckpointSpec.PublishIfSpaced(old(track), h, at, a)
    {
      var now := ReadClock();
      ghost var none := ConfirmAnswer(Unseen, 0, false);
      at, a := now, PublishAnswer(none, SendAnswer(None, 0, 0), none);
      if last.Some? && now - last.value < MIN_INTERVAL {
        return;
      }
      var ok;
      ok, a := Publish(false);
      if ok {
        since := 0;
        track := track.(since := 0);
      }
    }

    method CountDecision()
      requires Valid()
      modifies this
      ensures Valid() && track == Decided(old(track), st.saved)
    {
      SameHistory(track, Decided(track, st.saved));
      since := since + 1;
      track := Decided(track, st.saved);
    }

    // Called after every recorded decision, once the reply is written.
    method MaybePublish() returns (ghost a: TriggerAnswer)
      requires Valid()
      modifies this, st.os`proc, st.os`deeds, w`time, w`readings, w`receipts
      ensures Valid()
      ensures var h := Head(|st.log|, st.os.env.rootOf(st.log));
        && TriggerTimely(old(track), h, st.saved, a)
        && track == CheckpointSpec.MaybePublish(old(track), h, st.saved, a)
    {
      ghost var none := ConfirmAnswer(Unseen, 0, false);
      ghost var first := Confirm();
      a := TriggerAnswer(first, 0, PublishAnswer(none, SendAnswer(None, 0, 0), none));
      CountDecision();
      if since < every {
        return;
      }
      ghost var now, publish := PublishIfSpaced();
      a := TriggerAnswer(first, now, publish);
    }

    // One more checkpoint at clean shutdown, waited for.
    method PublishNow() returns (ghost a: PublishAnswer)
      requires Valid()
      modifies this, st.os`proc, st.os`deeds, w`time, w`readings, w`receipts
      ensures Valid()
      ensures var h := Head(|st.log|, st.os.env.rootOf(st.log));
        && PublishTimely(old(track).(saved := st.saved), h, true, a)
        && track == CheckpointSpec.PublishNow(old(track), h, st.saved, a)
      ensures Published()
    {
      SameHistory(track, track.(saved := st.saved));
      track := track.(saved := st.saved);
      var ok;
      ok, a := Publish(true);
    }
  }
}
