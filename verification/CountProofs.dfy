// Settle calls under one capability never exceed its MaxPayments: for every
// gateway on one state directory, and for every gateway on one log.
module CountProofs {
  import opened Files
  import opened Machine
  import opened LockProofs

  // The count file a family of gateways has in common.
  datatype Anchor = ByDir(dir: Dir, cap: Digest) | ByLog(log: LogPath, cap: Digest)

  function CountPath(a: Anchor): Path {
    if a.ByDir? then StateCount(a.dir, a.cap) else BesideCount(a.log, a.cap)
  }

  predicate Matches(cfg: Config, a: Anchor) {
    cfg.cap == a.cap && (if a.ByDir? then cfg.dir == a.dir else cfg.log == a.log)
  }

  // The lock that keeps the anchor's count file to one gateway.
  predicate Owns(a: Anchor, ph: Phase) {
    if a.ByDir? then HasCapLock(ph) else HasLogLock(ph)
  }

  // The anchor's count file has been read into `used`.
  predicate Known(a: Anchor, ph: Phase) {
    && HasCapLock(ph) && !(ph.FlockedCap? || ph.Locked? || ph.GotLog? || ph.WroteLog?)
    && (a.ByLog? ==> !ph.GotState?)
  }

  // `used` has just been renamed over the anchor's count file.
  predicate JustWritten(a: Anchor, ph: Phase) {
    if a.ByDir? then ph.SyncState? else ph.SyncBeside?
  }

  // `used` is on disk in the anchor's count file, whatever happens next.
  predicate Durable(a: Anchor, ph: Phase) {
    || ph.SaveLog? || ph.SyncLog? || ph.Settling?
    || (a.ByDir? && (ph.CountBeside? || ph.SyncBeside?) && !ph.bad)
  }

  function CountSettled(settled: seq<Settled>, a: Anchor): nat {
    if settled == [] then 0
    else CountSettled(settled[..|settled| - 1], a) + (if Matches(settled[|settled| - 1].cfg, a) then 1 else 0)
  }

  lemma CountSettledAppend(settled: seq<Settled>, c: Settled, a: Anchor)
    ensures CountSettled(settled + [c], a) == CountSettled(settled, a) + (if Matches(c.cfg, a) then 1 else 0)
  {
    assert (settled + [c])[..|settled|] == settled;
  }

  ghost predicate AllCover(fs: Files, a: Anchor, n: int) {
    forall c <- Maybe(fs, CountPath(a)) :: Covers(c, a.cap, n)
  }

  ghost predicate ProcCount(env: Env, fs: Files, p: Proc, a: Anchor, n: nat) {
    && (Known(a, p.phase) ==> p.used >= n)
    && (p.job.Allowed? ==> n + 1 <= p.used <= env.maxPayments(a.cap))
    && (JustWritten(a, p.phase) ==> Vis(fs, CountPath(a)) == CountContent(p))
    && (Durable(a, p.phase) ==> AllCover(fs, a, p.used))
    && (p.job.Allowed? ==> Known(a, p.phase))
    && (!HasCapLock(p.phase) ==> p.job.Boot?)
    && (p.phase in {FlockedCap, Locked, GotLog, WroteLog, GotState, GotBeside, GotLegacy} ==> p.job.Boot?)
  }

  ghost predicate CountInv(env: Env, s: State, a: Anchor) {
    var n := CountSettled(s.settled, a);
    && Plausible(s.files)
    && n <= env.maxPayments(a.cap)
    && AllCover(s.files, a, n)
    && forall pid <- s.procs :: Acting(s.procs[pid]) && Matches(s.procs[pid].cfg, a) ==>
                                  ProcCount(env, s.files, s.procs[pid], a, n)
  }

  // What an effect by a gateway outside the anchor's lock leaves in place.
  ghost predicate CountFrame(fs: Files, fs': Files, a: Anchor) {
    && Maybe(fs', CountPath(a)) <= Maybe(fs, CountPath(a))
    && Vis(fs', CountPath(a)) == Vis(fs, CountPath(a))
  }

  lemma EffectKeepsPlausible(s: State, pid: Pid, cfg: Config, e: Effect, s': State)
    requires Effected(s, pid, cfg, e, s') && Plausible(s.files)
    ensures Plausible(s'.files)
  {
  }

  lemma StrangerFrames(env: Env, s: State, pid: Pid, p: Proc, e: Effect, s': State, a: Anchor)
    requires Effected(s, pid, p.cfg, e, s') && Plausible(s.files)
    requires LocalStep(env, p, e).Some? && (p.phase.Failing? ==> e.Close?) && !p.phase.Dead?
    requires !(Matches(p.cfg, a) && Owns(a, p.phase))
    ensures CountFrame(s.files, s'.files, a)
    ensures CountSettled(s'.settled, a) == CountSettled(s.settled, a)
  {
    if e.Rename? || e.Sync? || e.Settle? {
      SameLockPhase(env, p, e);
    }
    match e
    case Rename(path, c, ok) => RenamedElsewhere(s.files, path, c, ok, s'.files, CountPath(a));
    case Sync(d, ok) => SyncedAt(s.files, d, ok, s'.files, CountPath(a));
    case Settle(micro) => CountSettledAppend(s.settled, Settled(p.cfg, micro), a);
    case _ =>
  }

  lemma FrameKeepsProc(env: Env, fs: Files, fs': Files, p: Proc, a: Anchor, n: nat)
    requires CountFrame(fs, fs', a) && ProcCount(env, fs, p, a, n)
    ensures ProcCount(env, fs', p, a, n)
  {
  }

  // The acting gateway, one lemma per kind of effect.
  lemma ReadKeepsCount(env: Env, fs: Files, p: Proc, path: Path, a: Anchor, n: nat)
    requires Plausible(fs) && Acting(p) && Matches(p.cfg, a) && AllCover(fs, a, n) && ProcCount(env, fs, p, a, n)
    requires OnRead(env, p, path, Vis(fs, path)).Some?
    ensures var p' := OnRead(env, p, path, Vis(fs, path)).value;
      Acting(p') ==> ProcCount(env, fs, p', a, n)
  {
    VisIsPlausible(fs, CountPath(a));
  }

  lemma RenameLogKeepsCount(env: Env, fs: Files, fs': Files, p: Proc, c: Content, ok: bool, a: Anchor, n: nat)
    requires CountFrame(fs, fs', a) && Acting(p) && Matches(p.cfg, a)
    requires ProcCount(env, fs, p, a, n) && OnRename(p, LogFile(p.cfg.log), c, ok).Some?
    ensures var p' := OnRename(p, LogFile(p.cfg.log), c, ok).value;
      Acting(p') ==> ProcCount(env, fs', p', a, n)
  {
  }

  lemma RenameElsewhereKeepsCount(env: Env, fs: Files, fs': Files, p: Proc, path: Path, c: Content, ok: bool,
                                  a: Anchor, n: nat)
    requires CountFrame(fs, fs', a) && Acting(p) && Matches(p.cfg, a)
    requires path != CountPath(a) && path != LogFile(p.cfg.log)
    requires ProcCount(env, fs, p, a, n) && OnRename(p, path, c, ok).Some?
    ensures var p' := OnRename(p, path, c, ok).value;
      Acting(p') ==> ProcCount(env, fs', p', a, n)
  {
  }

  lemma RenameKeepsCount(env: Env, fs: Files, fs': Files, p: Proc, path: Path, c: Content, ok: bool, a: Anchor, n: nat)
    requires Renamed(fs, path, c, ok, fs') && Acting(p) && Matches(p.cfg, a)
    requires AllCover(fs, a, n) && ProcCount(env, fs, p, a, n)
    requires OnRename(p, path, c, ok).Some?
    ensures AllCover(fs', a, n)
    ensures var p' := OnRename(p, path, c, ok).value;
      Acting(p') ==> ProcCount(env, fs', p', a, n)
  {
    if path == CountPath(a) {
      assert c == CountContent(p) && Covers(c, a.cap, n);
    } else {
      RenamedElsewhere(fs, path, c, ok, fs', CountPath(a));
      if path == LogFile(p.cfg.log) {
        RenameLogKeepsCount(env, fs, fs', p, c, ok, a, n);
      } else {
        RenameElsewhereKeepsCount(env, fs, fs', p, path, c, ok, a, n);
      }
    }
  }

  lemma SyncKeepsCount(env: Env, fs: Files, fs': Files, p: Proc, d: Dir, ok: bool, a: Anchor, n: nat)
    requires Plausible(fs) && Synced(fs, d, ok, fs') && Acting(p) && Matches(p.cfg, a)
    requires AllCover(fs, a, n) && ProcCount(env, fs, p, a, n)
    requires OnSync(p, d, ok).Some?
    ensures AllCover(fs', a, n)
    ensures var p' := OnSync(p, d, ok).value;
      Acting(p') ==> ProcCount(env, fs', p', a, n)
  {
    SyncedAt(fs, d, ok, fs', CountPath(a));
  }

  lemma OtherEffectsKeepCount(env: Env, fs: Files, p: Proc, e: Effect, a: Anchor, n: nat)
    requires Acting(p) && Matches(p.cfg, a) && ProcCount(env, fs, p, a, n)
    requires !e.Read? && !e.Rename? && !e.Sync? && LocalStep(env, p, e).Some?
    requires n <= env.maxPayments(a.cap) && AllCover(fs, a, n)
    ensures var n' := if e.Settle? then n + 1 else n;
      && n' <= env.maxPayments(a.cap) && AllCover(fs, a, n')
      && var p' := LocalStep(env, p, e).value;
         Acting(p') ==> ProcCount(env, fs, p', a, n')
  {
  }

  lemma SelfKeepsCount(env: Env, s: State, pid: Pid, p: Proc, e: Effect, s': State, a: Anchor)
    requires Effected(s, pid, p.cfg, e, s') && Plausible(s.files)
    requires LocalStep(env, p, e).Some? && Acting(p) && Matches(p.cfg, a)
    requires var n := CountSettled(s.settled, a);
      n <= env.maxPayments(a.cap) && AllCover(s.files, a, n) && ProcCount(env, s.files, p, a, n)
    ensures var n := CountSettled(s'.settled, a);
      && n <= env.maxPayments(a.cap) && AllCover(s'.files, a, n)
      && var p' := LocalStep(env, p, e).value;
         Acting(p') ==> ProcCount(env, s'.files, p', a, n)
  {
    var n := CountSettled(s.settled, a);
    match e
    case Read(path, c) => ReadKeepsCount(env, s.files, p, path, a, n);
    case Rename(path, c, ok) => RenameKeepsCount(env, s.files, s'.files, p, path, c, ok, a, n);
    case Sync(d, ok) => SyncKeepsCount(env, s.files, s'.files, p, d, ok, a, n);
    case Settle(micro) =>
      OtherEffectsKeepCount(env, s.files, p, e, a, n);
      CountSettledAppend(s.settled, Settled(p.cfg, micro), a);
    case _ => OtherEffectsKeepCount(env, s.files, p, e, a, n);
  }

  lemma LocalStepKeepsConfig(env: Env, p: Proc, e: Effect)
    requires LocalStep(env, p, e).Some?
    ensures LocalStep(env, p, e).value.cfg == p.cfg
    ensures Acting(LocalStep(env, p, e).value) && (p.phase.Failing? ==> e.Close?) ==> !p.phase.Failing?
  {
  }

  // Every other gateway of the anchor keeps its part: either the effect left the
  // count file and the settle calls alone, or the others do not own the anchor.
  lemma OthersKeepCount(env: Env, s: State, pid: Pid, p': Proc, s': State, a: Anchor)
    requires LockInv(s) && !s.outside && CountInv(env, s, a) && pid in s.procs && Plausible(s'.files)
    requires var p, n, n' := s.procs[pid], CountSettled(s.settled, a), CountSettled(s'.settled, a);
      && s'.procs == s.procs[pid := p'] && p'.cfg == p.cfg
      && ((CountFrame(s.files, s'.files, a) && n' == n) ||
          (Matches(p.cfg, a) && Owns(a, p.phase) && AllCover(s'.files, a, n')
           && n' <= env.maxPayments(a.cap)))
      && (Acting(p') && Matches(p.cfg, a) ==> ProcCount(env, s'.files, p', a, n'))
    ensures CountInv(env, s', a)
  {
    var p, n, n' := s.procs[pid], CountSettled(s.settled, a), CountSettled(s'.settled, a);
    forall q <- s'.procs | q != pid && Acting(s'.procs[q]) && Matches(s'.procs[q].cfg, a)
      ensures ProcCount(env, s'.files, s'.procs[q], a, n')
    {
      assert ProcCount(env, s.files, s.procs[q], a, n);
      if CountFrame(s.files, s'.files, a) && n' == n {
        FrameKeepsProc(env, s.files, s'.files, s.procs[q], a, n);
      } else {
        LocksExclude(s, pid, q);
      }
    }
  }

  lemma ActKeepsCount(env: Env, s: State, pid: Pid, e: Effect, s': State, a: Anchor)
    requires LockInv(s) && !s.outside && CountInv(env, s, a) && NextBy(env, s, Act(pid, e), s')
    ensures CountInv(env, s', a)
  {
    var p := s.procs[pid];
    var p' := LocalStep(env, p, e).value;
    EffectKeepsPlausible(s, pid, p.cfg, e, s');
    if Acting(p) && Matches(p.cfg, a) {
      SelfKeepsCount(env, s, pid, p, e, s', a);
    }
    if !(Matches(p.cfg, a) && Owns(a, p.phase)) {
      StrangerFrames(env, s, pid, p, e, s', a);
    }
    LocalStepKeepsConfig(env, p, e);
    OthersKeepCount(env, s, pid, p', s', a);
  }

  lemma NextKeepsCount(env: Env, s: State, step: Step, s': State, a: Anchor)
    requires LockInv(s) && !s.outside && CountInv(env, s, a) && NextBy(env, s, step, s')
    ensures CountInv(env, s', a)
  {
    match step
    case Act(pid, e) => ActKeepsCount(env, s, pid, e, s', a);
    case PowerLoss => PowerLostAt(s.files, s'.files, CountPath(a));
    case _ =>
  }
}
