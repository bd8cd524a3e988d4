// The gateway's own code, imperative as it is. It reaches files, locks and the
// log only through Os, whose every operation may be called only where the
// transition system allows the effect, whatever its outcome. So each method
// here, whatever the disk answers and wherever it is cut short, is a path of
// Machine.LocalStep.
module Gateway {
  import opened Wrappers
  import opened Files
  import opened Machine
  import opened Deeds
  import opened LogProofs
  import opened RunTheorems

  class Os {
    const env: Env
    ghost var proc: Proc
    ghost var open: multiset<Inode>   // lock files this process has open
    ghost var deeds: seq<Deed>
    ghost var policy: Option<bool>    // what the policy answered last

    constructor (env: Env, cfg: Config)
      ensures this.env == env && proc == NewProc(cfg) && open == multiset{} && deeds == []
    {
      this.env, proc, open, deeds, policy := env, NewProc(cfg), multiset{}, [], None;
    }

    method OpenLock(l: Lock) returns (r: Option<Inode>)
      requires forall i :: OnOpenLock(proc, l, i).Some?
      modifies this
      ensures r.None? ==> proc == old(proc) && open == old(open) && deeds == old(deeds) + [CouldNot]
      ensures r.Some? ==> OnOpenLock(old(proc), l, r.value) == Some(proc) && open == old(open) + multiset{r.value}
      ensures r.Some? ==> deeds == old(deeds) + [Did(Effect.OpenLock(l, r.value))]
    {
      r := Any();
      if r.Some? {
        proc, open := OnOpenLock(proc, l, r.value).value, open + multiset{r.value};
        deeds := deeds + [Did(Effect.OpenLock(l, r.value))];
      } else {
        deeds := deeds + [CouldNot];
      }
    }

    method Flock(i: Inode) returns (ok: bool)
      requires OnFlock(proc, i, true).Some? && OnFlock(proc, i, false).Some?
      modifies `proc, `deeds
      ensures OnFlock(old(proc), i, ok) == Some(proc) && deeds == old(deeds) + [Did(Effect.Flock(i, ok))]
    {
      ok := Any();
      proc, deeds := OnFlock(proc, i, ok).value, deeds + [Did(Effect.Flock(i, ok))];
    }

    method CheckName(l: Lock) returns (named: Option<Inode>)
      requires forall n :: OnCheckName(proc, l, n).Some?
      modifies `proc, `deeds
      ensures OnCheckName(old(proc), l, named) == Some(proc) && deeds == old(deeds) + [Did(Effect.CheckName(l, named))]
    {
      named := Any();
      proc, deeds := OnCheckName(proc, l, named).value, deeds + [Did(Effect.CheckName(l, named))];
    }

    // None is a read that failed.
    method ReadFile(path: Path) returns (r: Option<Content>)
      requires forall c :: OnRead(env, proc, path, c).Some?
      modifies `proc, `deeds
      ensures r.None? ==> proc == old(proc) && deeds == old(deeds) + [CouldNot]
      ensures r.Some? ==> OnRead(env, old(proc), path, r.value) == Some(proc)
      ensures r.Some? ==> deeds == old(deeds) + [Did(Read(path, r.value))]
    {
      r := Any();
      if r.Some? {
        proc, deeds := OnRead(env, proc, path, r.value).value, deeds + [Did(Read(path, r.value))];
      } else {
        deeds := deeds + [CouldNot];
      }
    }

    // Temporary file, chmod, write, sync, close, rename.
    method Rename(path: Path, c: Content) returns (ok: bool)
      requires OnRename(proc, path, c, true).Some? && OnRename(proc, path, c, false).Some?
      modifies `proc, `deeds
      ensures OnRename(old(proc), path, c, ok) == Some(proc) && deeds == old(deeds) + [Did(Effect.Rename(path, c, ok))]
    {
      ok := Any();
      proc, deeds := OnRename(proc, path, c, ok).value, deeds + [Did(Effect.Rename(path, c, ok))];
    }

    method SyncDir(d: Dir) returns (ok: bool)
      requires OnSync(proc, d, true).Some? && OnSync(proc, d, false).Some?
      modifies `proc, `deeds
      ensures OnSync(old(proc), d, ok) == Some(proc) && deeds == old(deeds) + [Did(Sync(d, ok))]
    {
      ok := Any();
      proc, deeds := OnSync(proc, d, ok).value, deeds + [Did(Sync(d, ok))];
    }

    // The enforcement point: policyOk is what its policy answered. It appends
    // the entry for its decision to the log it is given.
    method Authorize(cap: Digest, policyOk: bool, micro: nat) returns (allow: bool, added: seq<Entry>)
      requires proc.phase.Running? && proc.cfg.cap == cap
      requires policyOk ==> proc.used < env.maxPayments(cap) && 1 <= micro <= env.maxMicro(cap)
      modifies `proc, `deeds, `policy
      ensures policy == Some(policyOk)
      ensures allow ==> policyOk
      ensures OnDecide(env, old(proc), added, allow, micro) == Some(proc)
      ensures deeds == old(deeds) + [Did(Decide(added, allow, micro))]
    {
      policy := Some(policyOk);
      allow := Any();
      allow := allow && policyOk;
      var id: nat := Any();
      added := [Entry(cap, allow, id)];
      if !allow {
        var dropped: bool := Any();
        added := if dropped then [] else added;
      }
      proc, deeds := OnDecide(env, proc, added, allow, micro).value, deeds + [Did(Decide(added, allow, micro))];
    }

    // The moment the settler is called.
    ghost method BeginSettle(micro: nat)
      requires OnSettle(proc, micro).Some?
      modifies `proc, `deeds
      ensures OnSettle(old(proc), micro) == Some(proc) && deeds == old(deeds) + [Did(Settle(micro))]
    {
      proc, deeds := OnSettle(proc, micro).value, deeds + [Did(Settle(micro))];
    }

    // A checkpoint handed to the endpoint; None is an error, which may come
    // before or after the endpoint took it.
    method SendHead(h: Head) returns (ack: Option<TxHash>)
      requires OnSend(env, proc, h).Some?
      modifies `proc, `deeds
      ensures OnSend(env, old(proc), h) == Some(proc) && deeds == old(deeds) + [Did(Send(h))]
    {
      ack := Any();
      proc, deeds := OnSend(env, proc, h).value, deeds + [Did(Send(h))];
    }

    method Close(i: Inode)
      requires i in open
      modifies this
      ensures proc == old(proc).(phase := Failing) && open == old(open) - multiset{i}
      ensures deeds == old(deeds) + [Did(Effect.Close(i))]
    {
      proc, open, deeds := proc.(phase := Failing), open - multiset{i}, deeds + [Did(Effect.Close(i))];
    }
  }

  // writeAtomic: the rename, then the sync of its directory.
  method WriteAtomic(os: Os, path: Path, c: Content) returns (ok: bool)
    requires var p := os.proc;
      && OnRename(p, path, c, false).Some? && OnRename(p, path, c, true).Some?
      && var q := OnRename(p, path, c, true).value;
         OnSync(q, DirOf(path), true).Some? && OnSync(q, DirOf(path), false).Some?
    modifies os`proc, os`deeds
    ensures var p := old(os.proc);
      || OnSync(OnRename(p, path, c, true).value, DirOf(path), ok) == Some(os.proc)
      || (!ok && OnRename(p, path, c, false) == Some(os.proc))
    ensures Wrote(old(os.deeds), os.deeds, path, c, ok)
  {
    ok := os.Rename(path, c);
    if ok {
      ok := os.SyncDir(DirOf(path));
    }
  }

  // May open the lock file l and then take it.
  predicate MayLock(p: Proc, l: Lock) {
    || (p.phase.Start? && l == LogLock(p.cfg.log))
    || (p.phase.HeldLog? && l == CapLock(p.cfg.dir, p.cfg.cap))
  }

  // The lock file, opened and locked.
  method TakeLock(os: Os, l: Lock, ghost fs: Files, ghost names: map<Lock, Inode>) returns (r: Option<Inode>)
    requires MayLock(os.proc, l)
    modifies os
    ensures r.None? ==> os.open == old(os.open)
    ensures r.None? ==> PlainSince(old(os.deeds), os.deeds) && !SmoothSince(old(os.deeds), os.deeds, fs, names)
    ensures r.Some? ==> os.open == old(os.open) + multiset{r.value}
    ensures r.Some? ==> os.deeds == old(os.deeds) + [Did(OpenLock(l, r.value)), Did(Flock(r.value, true))]
    ensures r.Some? ==>
      os.proc == if l.LogLock? then old(os.proc).(phase := FlockedLog, logIno := r.value)
                 else old(os.proc).(phase := FlockedCap, capIno := r.value)
  {
    ghost var d0 := os.deeds;
    var f := os.OpenLock(l);
    if f.None? {
      SmoothOne(d0, CouldNot, fs, names);
      return None;
    }
    var ok := os.Flock(f.value);
    if !ok {
      os.Close(f.value);
      LockRefused(d0, os.deeds, l, f.value, false, None, fs, names);
      return None;
    }
    return f;
  }

  // lockFile: on any failure the file it opened is closed again.
  method LockFile(os: Os, l: Lock, ghost fs: Files, ghost names: map<Lock, Inode>) returns (r: Option<Inode>)
    requires MayLock(os.proc, l)
    modifies os
    ensures r.None? ==> os.open == old(os.open)
    ensures r.Some? ==> os.open == old(os.open) + multiset{r.value}
    ensures r.Some? && l.LogLock? ==> os.proc == old(os.proc).(phase := HeldLog, logIno := r.value)
    ensures r.Some? && l.CapLock? ==> os.proc == old(os.proc).(phase := Locked, capIno := r.value)
    ensures r.Some? ==> os.deeds == old(os.deeds) + LockDeeds(l, r.value)
    ensures PlainSince(old(os.deeds), os.deeds)
    ensures SmoothSince(old(os.deeds), os.deeds, fs, names) ==> r.Some?
  {
    ghost var d0 := os.deeds;
    var f := TakeLock(os, l, fs, names);
    if f.None? {
      return None;
    }
    var named := os.CheckName(l);
    if named != f {
      os.Close(f.value);
      LockRefused(d0, os.deeds, l, f.value, true, named, fs, names);
      return None;
    }
    return f;
  }

  // openLog: load the log, or start an empty one, and write it back.
  // found is what the file held; None, that it could not be read.
  method OpenLog(os: Os, path: LogPath, ghost fs: Files, ghost names: map<Lock, Inode>)
    returns (r: Option<seq<Entry>>, ghost found: Option<Content>)
    requires os.proc.phase.Locked? && os.proc.cfg.log == path
    modifies os`proc, os`deeds
    ensures r.Some? ==> found.Some? && LoadLog(found.value) == r
    ensures r.Some? ==> os.proc == old(os.proc).(phase := WroteLog, entries := r.value)
    ensures r.Some? ==>
      os.deeds == old(os.deeds)
        + [Did(Read(LogFile(path), found.value)), Did(Rename(LogFile(path), Log(r.value), true))]
    ensures PlainSince(old(os.deeds), os.deeds)
    ensures SmoothSince(old(os.deeds), os.deeds, fs, names) ==> r == LoadLog(Vis(fs, LogFile(path)))
  {
    ghost var d0 := os.deeds;
    var c := os.ReadFile(LogFile(path));
    ghost var d1 := os.deeds;
    SmoothRead(d0, d0, LogFile(path), c, fs, names);
    if c.None? {
      return None, c;
    }
    var es := LoadLog(c.value);
    if es.None? {
      return None, c;
    }
    var ok := os.Rename(LogFile(path), Log(es.value));
    SmoothOne(d1, Did(Rename(LogFile(path), Log(es.value), ok)), fs, names);
    SmoothSplits(d0, d1, os.deeds, fs, names);
    if !ok {
      return None, c;
    }
    return es, c;
  }

  function AfterCount(ph: Phase): Phase {
    if ph.WroteLog? then GotState else if ph.GotState? then GotBeside else GotLegacy
  }

  method ReadCount(os: Os, path: Path, cap: Digest, soFar: nat) returns (r: Option<nat>, ghost found: Option<Content>)
    requires os.proc.cfg.cap == cap && os.proc.used == soFar
    requires (os.proc.phase.WroteLog? && path == StateCount(os.proc.cfg.dir, cap)) ||
             (os.proc.phase.GotState? && path == BesideCount(os.proc.cfg.log, cap)) ||
             (os.proc.phase.GotBeside? && path == LegacyCount(os.proc.cfg.log))
    modifies os`proc, os`deeds
    ensures r.Some? <==> found.Some? && LoadCount(found.value, cap).Some?
    ensures r.Some? ==> r.value == Max(soFar, LoadCount(found.value, cap).value)
    ensures r.Some? ==> os.proc == old(os.proc).(used := r.value, phase := AfterCount(old(os.proc).phase))
    ensures if found.None? then os.proc == old(os.proc)
            else OnRead(os.env, old(os.proc), path, found.value) == Some(os.proc)
    ensures os.deeds == old(os.deeds) + [if found.None? then CouldNot else Did(Read(path, found.value))]
  {
    var c := os.ReadFile(path);
    if c.None? {
      return None, c;
    }
    var v := LoadCount(c.value, cap);
    if v.None? {
      return None, c;
    }
    return Some(Max(soFar, v.value)), c;
  }

  // rootAt: the root over the log's first n entries.
  method RootAt(rootOf: seq<Entry> -> Root, log: seq<Entry>, n: nat) returns (root: Root)
    requires n <= |log|
    ensures root == rootOf(log[..n])
  {
    var leaves: seq<Entry> := [];
    for i := 0 to n
      invariant leaves == log[..i]
    {
      leaves := leaves + [log[i]];
    }
    root := rootOf(leaves);
  }

  method LoadCheckpointHead(os: Os, path: LogPath, log: seq<Entry>)
    returns (r: Option<nat>, ghost found: Option<Content>)
    requires os.proc.phase.GotLegacy? && os.proc.cfg.log == path && os.proc.entries == log
    modifies os`proc, os`deeds
    ensures r == if found.None? then None else LoadHead(os.env.rootOf, found.value, log)
    ensures r.Some? ==> r.value <= |log| && os.proc == old(os.proc).(phase := CountState, published := r.value)
    ensures if found.None? then os.proc == old(os.proc)
            else OnRead(os.env, old(os.proc), RecordFile(path), found.value) == Some(os.proc)
    ensures os.deeds == old(os.deeds) + [if found.None? then CouldNot else Did(Read(RecordFile(path), found.value))]
  {
    var c := os.ReadFile(RecordFile(path));
    if c.None? {
      return None, c;
    }
    match c.value
    case Absent => return Some(0), c;
    case Record(n, root, _) =>
      if n < 1 || n > |log| {
        return None, c;
      }
      var got := RootAt(os.env.rootOf, log, n);
      if got != root {
        return None, c;
      }
      return Some(n), c;
    case _ => return None, c;
  }

  // saveCheckpointHead: whatever it answers, the gateway goes on as before.
  method SaveCheckpointHead(os: Os, path: LogPath, n: nat, root: Root, tx: TxHash) returns (ok: bool)
    requires os.proc.phase.Running? && os.proc.cfg.log == path && n >= 1 && Head(n, root) in os.proc.heads
    modifies os`proc, os`deeds
    ensures os.proc == old(os.proc)
    ensures Wrote(old(os.deeds), os.deeds, RecordFile(path), Record(n, root, tx), ok)
  {
    ok := WriteAtomic(os, RecordFile(path), Record(n, root, tx));
  }

  class LogState {
    const os: Os
    const cfg: Config
    var lock: Inode
    var capLock: Inode
    var log: seq<Entry>
    var used: nat
    var saved: nat
    var published: nat

    // The fields are what the transition system says this gateway knows.
    ghost predicate Mirrors()
      reads this, os
    {
      && os.proc.cfg == cfg && os.proc.logIno == lock && os.proc.capIno == capLock
      && os.proc.entries == log && os.proc.used == used && os.proc.saved == saved && os.proc.published == published
      && os.open == multiset{lock, capLock}
    }

    constructor (os: Os, cfg: Config, lock: Inode, capLock: Inode, log: seq<Entry>, used: nat, published: nat)
      ensures this.os == os && this.cfg == cfg && this.lock == lock && this.capLock == capLock
      ensures this.log == log && this.used == used && this.saved == 0 && this.published == published
    {
      this.os, this.cfg, this.lock, this.capLock := os, cfg, lock, capLock;
      this.log, this.used, this.saved, this.published := log, used, 0, published;
    }

    // saveCounts: both copies are attempted, even if the first fails.
    method SaveCounts() returns (ok: bool)
      requires Mirrors() && os.proc.phase.CountState?
      modifies os`proc, os`deeds
      ensures os.proc == AfterCounts(old(os.proc), !ok)
      ensures if ok then os.deeds == old(os.deeds) + CountDeeds(cfg, used) else FailedSince(old(os.deeds), os.deeds)
      ensures PlainSince(old(os.deeds), os.deeds) && |os.deeds| <= |old(os.deeds)| + 4
    {
      ghost var d0 := os.deeds;
      var a := WriteAtomic(os, StateCount(cfg.dir, cfg.cap), Count(cfg.cap, used));
      ghost var d1 := os.deeds;
      var b := WriteAtomic(os, BesideCount(cfg.log, cfg.cap), Count(cfg.cap, used));
      CountsIff(d0, d1, os.deeds, cfg, used, a, b);
      ok := a && b;
    }

    // What a save that went through leaves: an ALLOW goes on to be settled.
    static function Saved(p: Proc): Proc {
      if p.job.Allowed? && !p.cfg.mode.Evaluate? then p.(phase := Settling, saved := |p.entries|)
      else p.(phase := Running, job := Idle, saved := |p.entries|)
    }

    // Both names are looked at, whatever the first answers.
    method StillHeld() returns (ok: bool)
      requires Mirrors() && os.proc.phase.CheckLog?
      modifies os`proc, os`deeds
      ensures os.proc == if ok then old(os.proc).(phase := CountState) else old(os.proc).(phase := Running, job := Idle)
      ensures exists a, b ::
        && os.deeds == old(os.deeds)
             + [Did(CheckName(LogLock(cfg.log), a)), Did(CheckName(CapLock(cfg.dir, cfg.cap), b))]
        && (ok <==> a == Some(lock) && b == Some(capLock))
    {
      var a := os.CheckName(LogLock(cfg.log));
      var b := os.CheckName(CapLock(cfg.dir, cfg.cap));
      ok := a == Some(lock) && b == Some(capLock);
    }

    // The log's own save, and the sync of its directory.
    method SaveLog() returns (ok: bool)
      requires Mirrors() && os.proc.phase.SaveLog?
      modifies os`proc, os`deeds
      ensures Wrote(old(os.deeds), os.deeds, LogFile(cfg.log), Log(log), ok)
      ensures os.proc == if ok then Saved(old(os.proc)) else old(os.proc).(phase := Running, job := Idle)
    {
      ok := os.Rename(LogFile(cfg.log), Log(log));
      if ok {
        ok := os.SyncDir(cfg.log.dir);
      }
    }

    // save: nothing after the first failure, and the log only after both counts.
    method Save() returns (ok: bool)
      requires Mirrors() && os.proc.phase.CheckLog? && !os.proc.job.Boot? && saved <= |log|
      modifies `saved, os`proc, os`deeds
      ensures Mirrors() && saved <= |log|
      ensures ok ==> saved == |log| && os.proc == Saved(old(os.proc))
      ensures !ok ==> saved == old(saved) && os.proc == old(os.proc).(phase := Running, job := Idle)
      ensures ok <==> os.deeds == old(os.deeds) + SaveDeeds(cfg, lock, capLock, log, used)
      ensures PlainSince(old(os.deeds), os.deeds) && |os.deeds| <= |old(os.deeds)| + 8
    {
      ghost var d0 := os.deeds;
      ok := StillHeld();
      ghost var d1 := os.deeds;
      if !ok {
        return false;
      }
      ok := SaveCounts();
      ghost var d2 := os.deeds;
      if !ok {
        NotSaved(d0, d1, os.deeds, cfg, lock, capLock, log, used);
        return false;
      }
      ok := SaveLog();
      WroteIff(d2, os.deeds, LogFile(cfg.log), Log(log), ok);
      if !ok {
        FailedSplits(d1, d2, os.deeds);
        NotSaved(d0, d1, os.deeds, cfg, lock, capLock, log, used);
        return false;
      }
      saved := |log|;
    }
  }

  // The three counts; found is what the files held, if none refused.
  method ReadCounts(os: Os, cfg: Config, ghost fs: Files, ghost names: map<Lock, Inode>)
    returns (r: Option<nat>, ghost found: Found)
    requires os.proc.phase.WroteLog? && os.proc.cfg == cfg && os.proc.used == 0
    modifies os`proc, os`deeds
    ensures r.Some? ==> os.proc == old(os.proc).(used := r.value, phase := GotLegacy)
    ensures r.Some? ==> HighestCount(cfg.cap, found) == r && os.deeds == old(os.deeds) + CountReads(cfg, found)
    ensures PlainSince(old(os.deeds), os.deeds)
    ensures SmoothSince(old(os.deeds), os.deeds, fs, names) ==> r == HighestCount(cfg.cap, FoundIn(fs, cfg))
  {
    found := Found(Absent, Absent, Absent, Absent, Absent);
    ghost var d0, c := os.deeds, None;
    r, c := ReadCount(os, StateCount(cfg.dir, cfg.cap), cfg.cap, 0);
    SmoothRead(d0, d0, StateCount(cfg.dir, cfg.cap), c, fs, names);
    if r.None? { return; }
    found := found.(state := c.value);
    ghost var d1 := os.deeds;
    r, c := ReadCount(os, BesideCount(cfg.log, cfg.cap), cfg.cap, r.value);
    SmoothRead(d0, d1, BesideCount(cfg.log, cfg.cap), c, fs, names);
    if r.None? { return; }
    found := found.(beside := c.value);
    ghost var d2 := os.deeds;
    r, c := ReadCount(os, LegacyCount(cfg.log), cfg.cap, r.value);
    SmoothRead(d0, d2, LegacyCount(cfg.log), c, fs, names);
    if r.None? { return; }
    found := found.(legacy := c.value);
  }

  // The log, written back, and the counts.
  method LoadLogAndCounts(os: Os, cfg: Config, ghost fs: Files, ghost names: map<Lock, Inode>)
    returns (r: Option<(seq<Entry>, nat)>, ghost found: Found)
    requires os.proc.phase.Locked? && os.proc.cfg == cfg && os.proc.used == 0
    modifies os`proc, os`deeds
    ensures r.Some? ==>
      && os.proc == old(os.proc).(phase := GotLegacy, entries := r.value.0, used := r.value.1)
      && LoadLog(found.log) == Some(r.value.0) && HighestCount(cfg.cap, found) == Some(r.value.1)
      && os.deeds == old(os.deeds)
         + [Did(Read(LogFile(cfg.log), found.log)), Did(Rename(LogFile(cfg.log), Log(r.value.0), true))]
         + CountReads(cfg, found)
    ensures PlainSince(old(os.deeds), os.deeds)
    ensures SmoothSince(old(os.deeds), os.deeds, fs, names) ==>
      && (r.Some? <==> LoadLog(FoundIn(fs, cfg).log).Some? && HighestCount(cfg.cap, FoundIn(fs, cfg)).Some?)
      && (r.Some? ==> LoadLog(FoundIn(fs, cfg).log) == Some(r.value.0))
  {
    found := Found(Absent, Absent, Absent, Absent, Absent);
    ghost var c;
    var log, used;
    ghost var d0 := os.deeds;
    log, c := OpenLog(os, cfg.log, fs, names);
    ghost var d1 := os.deeds;
    if log.None? { return None, found; }
    used, found := ReadCounts(os, cfg, fs, names);
    SmoothSplits(d0, d1, os.deeds, fs, names);
    if used.None? { return None, found; }
    found := found.(log := c.value);
    return Some((log.value, used.value)), found;
  }

  // Between the locks and the first write; None refuses. found is what was read.
  method LoadAll(os: Os, cfg: Config, ghost fs: Files, ghost names: map<Lock, Inode>)
    returns (r: Option<(seq<Entry>, nat, nat)>, ghost found: Found)
    requires os.proc.phase.Locked? && os.proc.cfg == cfg && os.proc.used == 0
    modifies os`proc, os`deeds
    ensures r.Some? ==>
      && r.value.2 <= |r.value.0|
      && os.proc == old(os.proc).(phase := CountState, entries := r.value.0, used := r.value.1, published := r.value.2)
      && os.deeds == old(os.deeds) + LoadDeeds(cfg, found, r.value.0)
      && Holds(os.env.rootOf, cfg.cap, found, r.value.0, r.value.1, r.value.2)
    ensures PlainSince(old(os.deeds), os.deeds)
    ensures SmoothSince(old(os.deeds), os.deeds, fs, names) ==> (r.Some? <==> Admits(os.env, fs, cfg))
  {
    ghost var c;
    var loaded, published;
    ghost var d0 := os.deeds;
    loaded, found := LoadLogAndCounts(os, cfg, fs, names);
    ghost var d1 := os.deeds;
    if loaded.None? { return None, found; }
    published, c := LoadCheckpointHead(os, cfg.log, loaded.value.0);
    SmoothRead(d0, d1, RecordFile(cfg.log), c, fs, names);
    if published.None? { return None, found; }
    found := found.(record := c.value);
    LoadedIsHeld(os.env.rootOf, cfg.cap, found, loaded.value.0, loaded.value.1, published.value);
    return Some((loaded.value.0, loaded.value.1, published.value)), found;
  }

  method CloseBoth(os: Os, lock: Inode, capLock: Inode)
    requires os.open == multiset{lock, capLock}
    modifies os
    ensures os.open == multiset{}
    ensures os.deeds == old(os.deeds) + [Did(Close(capLock)), Did(Close(lock))]
    ensures os.proc.heads == old(os.proc.heads)
  {
    os.Close(capLock);
    os.Close(lock);
  }

  // With both locks held: load everything, then write both counts once.
  method OpenLocked(os: Os, cfg: Config, lock: Inode, capLock: Inode, ghost fs: Files, ghost names: map<Lock, Inode>)
    returns (st: LogState?, ghost found: Found)
    requires os.proc == NewProc(cfg).(phase := Locked, logIno := lock, capIno := capLock)
    requires os.open == multiset{lock, capLock}
    modifies os
    ensures st == null ==> os.open == multiset{}
    ensures st != null ==> fresh(st) && st.os == os && st.cfg == cfg && st.Mirrors()
    ensures st != null ==> os.proc.phase.Running? && os.proc.job.Idle? && os.proc.heads == {}
    ensures st != null ==> st.saved == |st.log| && st.published <= |st.log| && st.lock == lock && st.capLock == capLock
    ensures st != null ==>
      && os.deeds == old(os.deeds) + LoadDeeds(cfg, found, st.log) + CountDeeds(cfg, st.used)
      && Holds(os.env.rootOf, cfg.cap, found, st.log, st.used, st.published)
    ensures PlainSince(old(os.deeds), os.deeds)
    ensures SmoothSince(old(os.deeds), os.deeds, fs, names) ==> (st != null <==> Admits(os.env, fs, cfg))
  {
    ghost var d0 := os.deeds;
    var loaded;
    loaded, found := LoadAll(os, cfg, fs, names);
    ghost var d1 := os.deeds;
    if loaded.None? {
      CloseBoth(os, lock, capLock);
      SmoothSplits(d0, d1, os.deeds, fs, names);
      return null, found;
    }
    st := new LogState(os, cfg, lock, capLock, loaded.value.0, loaded.value.1, loaded.value.2);
    var ok := st.SaveCounts();
    ghost var d2 := os.deeds;
    SmoothSplits(d0, d1, d2, fs, names);
    if !ok {
      CloseBoth(os, lock, capLock);
      SmoothSplits(d0, d2, os.deeds, fs, names);
      return null, found;
    }
    st.saved := |st.log|;
  }

  // The log's lock held: the walk of the state directory (walkOk is what it
  // answered), then the capability's lock, or the log's lock closed again.
  method LockCapability(os: Os, cfg: Config, lock: Inode, walkOk: bool, ghost fs: Files, ghost names: map<Lock, Inode>)
    returns (r: Option<Inode>)
    requires os.proc == NewProc(cfg).(phase := HeldLog, logIno := lock) && os.open == multiset{lock}
    modifies os
    ensures r.None? ==> os.open == multiset{}
    ensures r.Some? ==> walkOk && os.open == multiset{lock, r.value}
    ensures r.Some? ==> os.proc == NewProc(cfg).(phase := Locked, logIno := lock, capIno := r.value)
    ensures r.Some? ==> os.deeds == old(os.deeds) + LockDeeds(CapLock(cfg.dir, cfg.cap), r.value)
    ensures PlainSince(old(os.deeds), os.deeds)
    ensures SmoothSince(old(os.deeds), os.deeds, fs, names) ==> (r.Some? <==> walkOk)
  {
    ghost var d0 := os.deeds;
    if !walkOk {
      os.Close(lock);
      ClosingIsQuiet(d0, d0, lock, fs, names);
      return None;
    }
    r := LockFile(os, CapLock(cfg.dir, cfg.cap), fs, names);
    ghost var d1 := os.deeds;
    if r.None? {
      os.Close(lock);
      ClosingIsQuiet(d0, d1, lock, fs, names);
    }
  }

  method OpenBoth(os: Os, cfg: Config, walkOk: bool, ghost fs: Files, ghost names: map<Lock, Inode>)
    returns (r: Option<(Inode, Inode)>)
    requires os.proc == NewProc(cfg) && os.open == multiset{} && os.deeds == []
    modifies os
    ensures r.None? ==> os.open == multiset{}
    ensures r.Some? ==> walkOk && os.open == multiset{r.value.0, r.value.1}
    ensures r.Some? ==> os.proc == NewProc(cfg).(phase := Locked, logIno := r.value.0, capIno := r.value.1)
    ensures r.Some? ==>
      os.deeds == LockDeeds(LogLock(cfg.log), r.value.0) + LockDeeds(CapLock(cfg.dir, cfg.cap), r.value.1)
    ensures PlainSince([], os.deeds)
    ensures SmoothSince([], os.deeds, fs, names) ==> (r.Some? <==> walkOk)
  {
    var lock := LockFile(os, LogLock(cfg.log), fs, names);
    ghost var d1 := os.deeds;
    if lock.None? {
      return None;
    }
    var capLock := LockCapability(os, cfg, lock.value, walkOk, fs, names);
    SmoothSplits([], d1, os.deeds, fs, names);
    return if capLock.None? then None else Some((lock.value, capLock.value));
  }

  // openLogState: both locks, then everything else. A failure closes whatever was
  // opened. If every answer is the one that fs and names call for, it opens
  // exactly if the walk passed and nothing it reads is refused.
  method OpenLogState(os: Os, cfg: Config, walkOk: bool, ghost fs: Files, ghost names: map<Lock, Inode>)
    returns (st: LogState?, ghost found: Found)
    requires os.proc == NewProc(cfg) && os.open == multiset{} && os.deeds == []
    modifies os
    ensures st == null ==> os.open == multiset{}
    ensures st != null ==> walkOk && fresh(st) && st.os == os && st.cfg == cfg && st.Mirrors()
    ensures st != null ==> os.proc.phase.Running? && os.proc.job.Idle? && os.proc.heads == {}
    ensures st != null ==> st.saved == |st.log| && st.published <= |st.log|
    ensures st != null ==>
      && os.deeds == OpenDeeds(cfg, st.lock, st.capLock, found, st.log, st.used)
      && Holds(os.env.rootOf, cfg.cap, found, st.log, st.used, st.published)
    ensures PlainSince([], os.deeds)
    ensures SmoothSince([], os.deeds, fs, names) ==> (st != null <==> walkOk && Admits(os.env, fs, cfg))
  {
    var locks := OpenBoth(os, cfg, walkOk, fs, names);
    ghost var d := os.deeds;
    if locks.None? {
      return null, Found(Absent, Absent, Absent, Absent, Absent);
    }
    st, found := OpenLocked(os, cfg, locks.value.0, locks.value.1, fs, names);
    SmoothSplits([], d, os.deeds, fs, names);
  }
  // A start from a state that a run can reach, or from what a power loss leaves of
  // it: if nothing fails and the walk passes, it opens.
  method Restart(os: Os, cfg: Config, ghost run: seq<State>, ghost i: nat,
                 ghost fs: Files, ghost names: map<Lock, Inode>)
    returns (st: LogState?, ghost found: Found)
    requires os.proc == NewProc(cfg) && os.open == multiset{} && os.deeds == []
    requires IsRun(os.env, run) && i < |run| && !run[i].outside
    requires TypedInv(run[0]) && NoRecord(run[0], cfg.log)
    requires fs == run[i].files || PowerLost(run[i].files, fs)
    modifies os
    ensures SmoothSince([], os.deeds, fs, names) ==> st != null
  {
    RestartNeverRefuses(os.env, run, i, cfg, fs);
    st, found := OpenLogState(os, cfg, true, fs, names);
  }
}
