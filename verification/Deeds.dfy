// What one gateway has done so far, in order, with the answers it got.
module Deeds {
  import opened Wrappers
  import opened Files
  import opened Machine

  // An effect, or a call that failed before it had one.
  datatype Deed = Did(e: Effect) | CouldNot

  // ---- writes ----

  // writeAtomic of c to path, if every step goes through.
  function WriteDeeds(path: Path, c: Content): seq<Deed> {
    [Did(Rename(path, c, true)), Did(Sync(DirOf(path), true))]
  }

  // One write, and what it answered.
  predicate Wrote(was: seq<Deed>, now: seq<Deed>, path: Path, c: Content, ok: bool) {
    || now == was + [Did(Rename(path, c, true)), Did(Sync(DirOf(path), ok))]
    || (!ok && now == was + [Did(Rename(path, c, false))])
  }

  function CountDeeds(cfg: Config, used: nat): seq<Deed> {
    WriteDeeds(StateCount(cfg.dir, cfg.cap), Count(cfg.cap, used))
    + WriteDeeds(BesideCount(cfg.log, cfg.cap), Count(cfg.cap, used))
  }

  // A save, if every step goes through.
  function SaveDeeds(cfg: Config, lock: Inode, capLock: Inode, log: seq<Entry>, used: nat): seq<Deed> {
    [Did(CheckName(LogLock(cfg.log), Some(lock))), Did(CheckName(CapLock(cfg.dir, cfg.cap), Some(capLock)))]
    + CountDeeds(cfg, used)
    + [Did(Rename(LogFile(cfg.log), Log(log), true)), Did(Sync(cfg.log.dir, true))]
  }

  // ---- startup ----

  // What the files held as they were read.
  datatype Found = Found(log: Content, state: Content, beside: Content, legacy: Content, record: Content)

  function LockDeeds(l: Lock, i: Inode): seq<Deed> {
    [Did(OpenLock(l, i)), Did(Flock(i, true)), Did(CheckName(l, Some(i)))]
  }

  function CountReads(cfg: Config, f: Found): seq<Deed> {
    [Did(Read(StateCount(cfg.dir, cfg.cap), f.state)), Did(Read(BesideCount(cfg.log, cfg.cap), f.beside)),
     Did(Read(LegacyCount(cfg.log), f.legacy))]
  }

  function LoadDeeds(cfg: Config, f: Found, log: seq<Entry>): seq<Deed> {
    [Did(Read(LogFile(cfg.log), f.log)), Did(Rename(LogFile(cfg.log), Log(log), true))]
    + CountReads(cfg, f)
    + [Did(Read(RecordFile(cfg.log), f.record))]
  }

  // A start, if every step goes through.
  function OpenDeeds(cfg: Config, lock: Inode, capLock: Inode, f: Found, log: seq<Entry>, used: nat): seq<Deed> {
    LockDeeds(LogLock(cfg.log), lock) + LockDeeds(CapLock(cfg.dir, cfg.cap), capLock)
    + LoadDeeds(cfg, f, log) + CountDeeds(cfg, used)
  }

  // A count file that is not refused.
  predicate IsCountFile(c: Content) {
    c.Absent? || (c.Count? && c.allows >= 0)
  }

  // What was found is this log, this count for the capability and this
  // checkpoint, none of it refused: the count is the largest recorded for this
  // capability, whatever is recorded for others.
  predicate Holds(rootOf: seq<Entry> -> Root, cap: Digest, f: Found, log: seq<Entry>, used: nat, published: nat) {
    && (f.log == Log(log) || (f.log.Absent? && log == []))
    && IsCountFile(f.state) && IsCountFile(f.beside) && IsCountFile(f.legacy)
    && (forall c <- {f.state, f.beside, f.legacy} :: c.Count? && c.cap == cap ==> c.allows <= used)
    && (used == 0 || Count(cap, used) in {f.state, f.beside, f.legacy})
    && (if f.record.Absent? then published == 0
        else
          && f.record.Record? && 1 <= f.record.n <= |log| && f.record.n == published
          && rootOf(log[..f.record.n]) == f.record.root)
  }

  function HighestCount(cap: Digest, f: Found): Option<nat> {
    var a, b, c := LoadCount(f.state, cap), LoadCount(f.beside, cap), LoadCount(f.legacy, cap);
    if a.None? || b.None? || c.None? then None else Some(Max(Max(Max(0, a.value), b.value), c.value))
  }

  function FoundIn(fs: Files, cfg: Config): Found {
    Found(Vis(fs, LogFile(cfg.log)), Vis(fs, StateCount(cfg.dir, cfg.cap)), Vis(fs, BesideCount(cfg.log, cfg.cap)),
          Vis(fs, LegacyCount(cfg.log)), Vis(fs, RecordFile(cfg.log)))
  }

  lemma LoadedIsHeld(rootOf: seq<Entry> -> Root, cap: Digest, f: Found, log: seq<Entry>, used: nat, published: nat)
    requires LoadLog(f.log) == Some(log) && HighestCount(cap, f) == Some(used)
    requires LoadHead(rootOf, f.record, log) == Some(published)
    ensures Holds(rootOf, cap, f, log, used, published)
  {
  }

  // What never opens: a log, a count or a record that is something else, and a
  // record whose root is not that of the log's first n entries. And counts of
  // other capabilities count for nothing.
  lemma RefusedWhateverElse(rootOf: seq<Entry> -> Root, cap: Digest, f: Found,
                            log: seq<Entry>, used: nat, published: nat)
    requires Holds(rootOf, cap, f, log, used, published)
    ensures Garbage !in {f.log, f.state, f.beside, f.legacy, f.record}
    ensures f.record.Record? ==> f.record.n <= |log| && rootOf(log[..f.record.n]) == f.record.root
    ensures (forall c <- {f.state, f.beside, f.legacy} :: c.Count? ==> c.cap != cap) ==> used == 0
  {
  }

  // ---- a quiet machine ----

  // The answer is the one that these files and lock names call for, and nothing
  // failed.
  predicate Smooth(d: Deed, fs: Files, names: map<Lock, Inode>) {
    d.Did? &&
    match d.e
    case OpenLock(l, i) => l in names && i == names[l]
    case Flock(_, ok) => ok
    case CheckName(l, named) => l in names && named == Some(names[l])
    case Read(p, c) => c == Vis(fs, p)
    case Rename(_, _, ok) => ok
    case Sync(_, ok) => ok
    case _ => true
  }

  predicate SmoothSince(was: seq<Deed>, now: seq<Deed>, fs: Files, names: map<Lock, Inode>) {
    was <= now && forall k: nat :: |was| <= k < |now| ==> Smooth(now[k], fs, names)
  }

  lemma SmoothSplits(was: seq<Deed>, mid: seq<Deed>, now: seq<Deed>, fs: Files, names: map<Lock, Inode>)
    requires was <= mid <= now
    ensures SmoothSince(was, now, fs, names) <==> SmoothSince(was, mid, fs, names) && SmoothSince(mid, now, fs, names)
  {
  }

  lemma SmoothOne(was: seq<Deed>, d: Deed, fs: Files, names: map<Lock, Inode>)
    ensures SmoothSince(was, was + [d], fs, names) <==> Smooth(d, fs, names)
  {
    assert (was + [d])[|was|] == d;
  }

  predicate IsCheckpoint(d: Deed) {
    d.Did? && (d.e.Send? || (d.e.Rename? && d.e.path.RecordFile?))
  }

  predicate PlainSince(was: seq<Deed>, now: seq<Deed>) {
    was <= now && forall k: nat :: |was| <= k < |now| ==> !IsCheckpoint(now[k])
  }

  // ---- failures ----

  predicate Fails(d: Deed) {
    || d.CouldNot?
    || (d.e.Flock? && !d.e.ok) || (d.e.Rename? && !d.e.ok) || (d.e.Sync? && !d.e.ok)
  }

  ghost predicate FailedSince(was: seq<Deed>, now: seq<Deed>) {
    was <= now && exists k: nat :: |was| <= k < |now| && Fails(now[k])
  }

  lemma FailedSplits(was: seq<Deed>, mid: seq<Deed>, now: seq<Deed>)
    requires was <= mid <= now
    ensures FailedSince(was, now) <==> FailedSince(was, mid) || FailedSince(mid, now)
  {
    if FailedSince(was, mid) {
      var k: nat :| |was| <= k < |mid| && Fails(mid[k]);
      assert Fails(now[k]);
    }
  }

  // A failure is neither smooth nor part of what success leaves.
  lemma FailureShows(was: seq<Deed>, now: seq<Deed>, good: seq<Deed>, fs: Files, names: map<Lock, Inode>)
    requires FailedSince(was, now) && forall d <- good :: !Fails(d)
    ensures now != was + good && !SmoothSince(was, now, fs, names)
  {
    var k: nat :| |was| <= k < |now| && Fails(now[k]);
    assert forall i: nat :: i < |good| ==> (was + good)[|was| + i] == good[i];
  }

  lemma WroteIff(was: seq<Deed>, now: seq<Deed>, path: Path, c: Content, ok: bool)
    requires Wrote(was, now, path, c, ok)
    ensures was <= now && (if ok then now == was + WriteDeeds(path, c) else FailedSince(was, now))
    ensures !path.RecordFile? ==> PlainSince(was, now)
  {
    if |now| == |was| + 2 {
      assert now[|was| + 1] == Did(Sync(DirOf(path), ok));
    } else {
      assert now[|was|] == Did(Rename(path, c, false));
    }
  }

  lemma CountsIff(was: seq<Deed>, mid: seq<Deed>, now: seq<Deed>, cfg: Config, used: nat, a: bool, b: bool)
    requires Wrote(was, mid, StateCount(cfg.dir, cfg.cap), Count(cfg.cap, used), a)
    requires Wrote(mid, now, BesideCount(cfg.log, cfg.cap), Count(cfg.cap, used), b)
    ensures was <= now && PlainSince(was, now) && |now| <= |was| + 4
    ensures if a && b then now == was + CountDeeds(cfg, used) else FailedSince(was, now)
  {
    WroteIff(was, mid, StateCount(cfg.dir, cfg.cap), Count(cfg.cap, used), a);
    WroteIff(mid, now, BesideCount(cfg.log, cfg.cap), Count(cfg.cap, used), b);
    FailedSplits(was, mid, now);
  }

  // Closing a lock file changes neither.
  lemma ClosingIsQuiet(was: seq<Deed>, mid: seq<Deed>, i: Inode, fs: Files, names: map<Lock, Inode>)
    requires was <= mid
    ensures var now := mid + [Did(Close(i))];
      && (PlainSince(was, now) <==> PlainSince(was, mid))
      && (SmoothSince(was, now, fs, names) <==> SmoothSince(was, mid, fs, names))
  {
    var now := mid + [Did(Close(i))];
    assert now[|mid|] == Did(Close(i));
    assert forall k: nat :: k < |mid| ==> now[k] == mid[k];
  }

  // A lock that was opened and not taken, or not under its name.
  lemma LockRefused(was: seq<Deed>, now: seq<Deed>, l: Lock, i: Inode, ok: bool, named: Option<Inode>,
                    fs: Files, names: map<Lock, Inode>)
    requires ok ==> named != Some(i)
    requires now == was + [Did(OpenLock(l, i)), Did(Flock(i, ok))] + (if ok then [Did(CheckName(l, named))] else [])
                  + [Did(Close(i))]
    ensures PlainSince(was, now) && !SmoothSince(was, now, fs, names)
  {
    assert now[|was|] == Did(OpenLock(l, i)) && now[|was| + 1] == Did(Flock(i, ok));
    if ok {
      assert now[|was| + 2] == Did(CheckName(l, named));
    }
  }

  // One read more: if it failed or was not what fs holds, it was not smooth.
  lemma SmoothRead(was: seq<Deed>, mid: seq<Deed>, path: Path, found: Option<Content>,
                   fs: Files, names: map<Lock, Inode>)
    requires was <= mid
    ensures var now := mid + [if found.None? then CouldNot else Did(Read(path, found.value))];
      && (PlainSince(was, now) <==> PlainSince(was, mid))
      && (SmoothSince(was, now, fs, names) <==> SmoothSince(was, mid, fs, names) && found == Some(Vis(fs, path)))
  {
    var d := if found.None? then CouldNot else Did(Read(path, found.value));
    SmoothOne(mid, d, fs, names);
    SmoothSplits(was, mid, mid + [d], fs, names);
    assert (mid + [d])[|mid|] == d;
    assert forall k: nat :: k < |mid| ==> (mid + [d])[k] == mid[k];
  }

  lemma NotSaved(was: seq<Deed>, mid: seq<Deed>, now: seq<Deed>,
                 cfg: Config, lock: Inode, capLock: Inode, log: seq<Entry>, used: nat)
    requires was <= mid && FailedSince(mid, now)
    ensures now != was + SaveDeeds(cfg, lock, capLock, log, used)
  {
    FailedSplits(was, mid, now);
    FailureShows(was, now, SaveDeeds(cfg, lock, capLock, log, used), map[], map[]);
  }

  // ---- checkpoints among the deeds ----

  // The heads handed to the endpoint, and the records written or attempted, in
  // order.
  function Sends(deeds: seq<Deed>): seq<Head> {
    if deeds == [] then []
    else
      var d := deeds[|deeds| - 1];
      Sends(deeds[..|deeds| - 1]) + (if d.Did? && d.e.Send? then [d.e.head] else [])
  }

  function RecordWrites(deeds: seq<Deed>): seq<Content> {
    if deeds == [] then []
    else
      var d := deeds[|deeds| - 1];
      RecordWrites(deeds[..|deeds| - 1])
      + (if d.Did? && d.e.Rename? && d.e.path.RecordFile? then [d.e.content] else [])
  }

  lemma OneMoreDeed(deeds: seq<Deed>, d: Deed)
    ensures Sends(deeds + [d]) == Sends(deeds) + (if d.Did? && d.e.Send? then [d.e.head] else [])
    ensures RecordWrites(deeds + [d])
         == RecordWrites(deeds) + (if d.Did? && d.e.Rename? && d.e.path.RecordFile? then [d.e.content] else [])
  {
    assert (deeds + [d])[..|deeds|] == deeds;
  }

  lemma {:induction false} PlainKeepsCheckpoints(was: seq<Deed>, now: seq<Deed>)
    requires PlainSince(was, now)
    ensures Sends(now) == Sends(was) && RecordWrites(now) == RecordWrites(was)
    decreases |now|
  {
    if was == now {
    } else {
      var front := now[..|now| - 1];
      assert was <= front;
      PlainKeepsCheckpoints(was, front);
      assert !IsCheckpoint(now[|now| - 1]);
    }
  }

  // One write of a record adds that record, whatever it answered.
  lemma WroteRecordDeeds(was: seq<Deed>, now: seq<Deed>, log: LogPath, c: Content, ok: bool)
    requires Wrote(was, now, RecordFile(log), c, ok)
    ensures Sends(now) == Sends(was) && RecordWrites(now) == RecordWrites(was) + [c]
  {
    var renamed := now[|was|];
    OneMoreDeed(was, renamed);
    if |now| == |was| + 2 {
      OneMoreDeed(was + [renamed], now[|was| + 1]);
      assert now == was + [renamed] + [now[|was| + 1]];
    } else {
      assert now == was + [renamed];
    }
  }
}
