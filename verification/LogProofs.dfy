// What every reachable state says about one log: the count beside it covers its
// ALLOW entries, every checkpoint ever sent is a prefix of it, and its
// checkpoint record names a checkpoint that was sent.
module LogProofs {
  import opened Files
  import opened Machine
  import opened LockProofs
  import opened CountProofs

  // The log is in memory.
  predicate Loaded(ph: Phase) {
    HasCapLock(ph) && !ph.FlockedCap? && !ph.Locked?
  }

  lemma AllowsAppend(es: seq<Entry>, added: seq<Entry>, cap: Digest)
    requires |added| <= 1
    ensures Allows(es + added, cap) ==
            Allows(es, cap) + (if |added| == 1 && added[0].cap == cap && added[0].allow then 1 else 0)
  {
    if |added| == 1 {
      assert (es + added)[..|es|] == es;
    } else {
      assert es + added == es;
    }
  }

  // ---- the count beside the log ----

  ghost predicate LogsWithin(fs: Files, log: LogPath, cap: Digest, n: int) {
    forall l <- Maybe(fs, LogFile(log)) :: Allows(EntriesOf(l), cap) <= n
  }

  ghost predicate BesideCovers(fs: Files, log: LogPath, cap: Digest, n: int) {
    AllCover(fs, ByLog(log, cap), n)
  }

  // Whatever count and whatever log a power loss leaves behind, the count is at
  // least the ALLOWs in the log.
  ghost predicate CountCoversLog(fs: Files, log: LogPath, cap: Digest) {
    forall l <- Maybe(fs, LogFile(log)) :: BesideCovers(fs, log, cap, Allows(EntriesOf(l), cap))
  }

  ghost predicate ProcAllows(fs: Files, p: Proc, cap: Digest) {
    var log, a := p.cfg.log, ByLog(p.cfg.log, cap);
    if p.cfg.cap == cap && Known(a, p.phase) then
      && p.used >= Allows(p.entries, cap)
      && LogsWithin(fs, log, cap, p.used)
      && (JustWritten(a, p.phase) ==> Vis(fs, CountPath(a)) == CountContent(p))
      && (Durable(a, p.phase) ==> AllCover(fs, a, p.used))
    else
      Loaded(p.phase) ==> BesideCovers(fs, log, cap, Allows(p.entries, cap))
  }

  ghost predicate AllowInv(s: State, log: LogPath, cap: Digest) {
    && Plausible(s.files)
    && CountCoversLog(s.files, log, cap)
    && forall pid <- s.procs :: Acting(s.procs[pid]) && s.procs[pid].cfg.log == log ==>
                                  ProcAllows(s.files, s.procs[pid], cap)
  }

  // ---- checkpoints ----

  // The head is the root of the log's first n entries.
  predicate Anchored(env: Env, h: Head, es: seq<Entry>) {
    1 <= h.n <= |es| && env.rootOf(es[..h.n]) == h.root
  }

  ghost predicate AllAnchored(env: Env, sent: set<(LogPath, Head)>, log: LogPath, es: seq<Entry>) {
    forall h: Head :: (log, h) in sent ==> Anchored(env, h, es)
  }

  predicate RecordIsSent(sent: set<(LogPath, Head)>, log: LogPath, c: Content) {
    c.Absent? || (c.Record? && c.n >= 1 && (log, Head(c.n, c.root)) in sent)
  }

  ghost predicate FilesAnchored(env: Env, fs: Files, sent: set<(LogPath, Head)>, log: LogPath) {
    && (forall l <- Maybe(fs, LogFile(log)) :: AllAnchored(env, sent, log, EntriesOf(l)))
    && (forall c <- Maybe(fs, RecordFile(log)) :: RecordIsSent(sent, log, c))
  }

  // The saved prefix of the log in memory is in every log a power loss may leave.
  predicate KeepsPrefix(es: seq<Entry>, l: Content, saved: nat) {
    saved <= |es| && saved <= |EntriesOf(l)| && EntriesOf(l)[..saved] == es[..saved]
  }

  ghost predicate ProcAnchored(env: Env, fs: Files, sent: set<(LogPath, Head)>, p: Proc) {
    && (forall h <- p.heads :: (p.cfg.log, h) in sent)
    && (Loaded(p.phase) ==> AllAnchored(env, sent, p.cfg.log, p.entries))
    && (Loaded(p.phase) && (p.job.Boot? || p.phase.SyncLog?) ==> EntriesOf(Vis(fs, LogFile(p.cfg.log))) == p.entries)
    && (PastOpen(p.phase) ==> !p.job.Boot?)
    && (!Loaded(p.phase) ==> p.heads == {})
    && (!p.job.Boot? ==>
          && Loaded(p.phase) && p.saved <= |p.entries|
          && forall l <- Maybe(fs, LogFile(p.cfg.log)) :: KeepsPrefix(p.entries, l, p.saved))
  }

  ghost predicate SentInv(env: Env, s: State, log: LogPath) {
    && Plausible(s.files)
    && FilesAnchored(env, s.files, s.sent, log)
    && forall pid <- s.procs :: Acting(s.procs[pid]) && s.procs[pid].cfg.log == log ==>
                                  ProcAnchored(env, s.files, s.sent, s.procs[pid])
  }

  // ---- frames: a gateway that does not hold the log's lock ----

  ghost predicate Shrinks(fs: Files, fs': Files, p: Path) {
    Maybe(fs', p) <= Maybe(fs, p) && Vis(fs', p) == Vis(fs, p)
  }

  ghost predicate LogFrame(fs: Files, fs': Files, log: LogPath, cap: Digest) {
    && Shrinks(fs, fs', LogFile(log)) && Shrinks(fs, fs', RecordFile(log)) && Shrinks(fs, fs', BesideCount(log, cap))
  }

  lemma StrangerFramesLog(env: Env, s: State, pid: Pid, p: Proc, e: Effect, s': State, log: LogPath, cap: Digest)
    requires Effected(s, pid, p.cfg, e, s') && Plausible(s.files)
    requires LocalStep(env, p, e).Some? && (p.phase.Failing? ==> e.Close?) && !p.phase.Dead?
    requires !(p.cfg.log == log && HasLogLock(p.phase))
    ensures LogFrame(s.files, s'.files, log, cap)
    ensures forall h: Head :: (log, h) in s'.sent <==> (log, h) in s.sent
  {
    if e.Rename? || e.Sync? || e.Send? {
      SameLockPhase(env, p, e);
    }
    match e
    case Rename(path, c, ok) =>
      RenamedElsewhere(s.files, path, c, ok, s'.files, LogFile(log));
      RenamedElsewhere(s.files, path, c, ok, s'.files, RecordFile(log));
      RenamedElsewhere(s.files, path, c, ok, s'.files, BesideCount(log, cap));
    case Sync(d, ok) =>
      SyncedAt(s.files, d, ok, s'.files, LogFile(log));
      SyncedAt(s.files, d, ok, s'.files, RecordFile(log));
      SyncedAt(s.files, d, ok, s'.files, BesideCount(log, cap));
    case _ =>
  }

  lemma FrameKeepsAllows(fs: Files, fs': Files, p: Proc, cap: Digest)
    requires LogFrame(fs, fs', p.cfg.log, cap) && ProcAllows(fs, p, cap)
    ensures ProcAllows(fs', p, cap)
  {
  }

  lemma FrameKeepsAnchored(env: Env, fs: Files, fs': Files, sent: set<(LogPath, Head)>, sent': set<(LogPath,
                           Head)>, p: Proc)
    requires Shrinks(fs, fs', LogFile(p.cfg.log)) && ProcAnchored(env, fs, sent, p)
    requires forall h: Head :: (p.cfg.log, h) in sent' <==> (p.cfg.log, h) in sent
    ensures ProcAnchored(env, fs', sent', p)
  {
  }

  // ---- the acting gateway: the count beside the log ----

  // A step that learns nothing: the same entries and count, known no better.
  predicate Quiet(p: Proc, p': Proc, cap: Digest) {
    var a := ByLog(p.cfg.log, cap);
    && p'.cfg == p.cfg && p'.entries == p.entries && p'.used == p.used
    && (Known(a, p'.phase) <==> Known(a, p.phase)) && (Loaded(p'.phase) ==> Loaded(p.phase))
    && (JustWritten(a, p'.phase) ==> JustWritten(a, p.phase)) && (Durable(a, p'.phase) ==> Durable(a, p.phase))
  }

  lemma QuietKeepsAllows(fs: Files, p: Proc, p': Proc, cap: Digest)
    requires ProcAllows(fs, p, cap) && Quiet(p, p', cap)
    ensures ProcAllows(fs, p', cap)
  {
  }

  // The log as it is loaded is one its count covers.
  lemma LoadedLogIsCovered(fs: Files, log: LogPath, cap: Digest)
    requires Plausible(fs) && CountCoversLog(fs, log, cap)
    ensures BesideCovers(fs, log, cap, Allows(EntriesOf(Vis(fs, LogFile(log))), cap))
  {
    VisIsPlausible(fs, LogFile(log));
  }

  // The count beside the log, once read, covers every log the disk may hold.
  lemma ReadBesideKeepsAllows(fs: Files, p: Proc, cap: Digest)
    requires Plausible(fs) && CountCoversLog(fs, p.cfg.log, cap) && ProcAllows(fs, p, cap)
    requires p.phase.GotState? && p.cfg.cap == cap
    ensures var p' := OnCount(p, Vis(fs, BesideCount(p.cfg.log, cap)), GotBeside);
      Acting(p') ==> ProcAllows(fs, p', cap)
  {
    var c := Vis(fs, BesideCount(p.cfg.log, cap));
    VisIsPlausible(fs, BesideCount(p.cfg.log, cap));
    assert Covers(c, cap, Allows(p.entries, cap));
    forall l <- Maybe(fs, LogFile(p.cfg.log))
      ensures Covers(c, cap, Allows(EntriesOf(l), cap))
    {
      assert BesideCovers(fs, p.cfg.log, cap, Allows(EntriesOf(l), cap));
    }
  }

  // Reading anything else raises the count at most.
  lemma ReadOtherKeepsAllows(env: Env, fs: Files, p: Proc, path: Path, c: Content, cap: Digest)
    requires ProcAllows(fs, p, cap) && !p.phase.Locked? && !(p.phase.GotState? && p.cfg.cap == cap)
    requires OnRead(env, p, path, c).Some?
    ensures var p' := OnRead(env, p, path, c).value;
      Acting(p') ==> ProcAllows(fs, p', cap)
  {
  }

  lemma ReadKeepsAllows(env: Env, fs: Files, p: Proc, path: Path, cap: Digest)
    requires Plausible(fs) && Acting(p) && CountCoversLog(fs, p.cfg.log, cap) && ProcAllows(fs, p, cap)
    requires OnRead(env, p, path, Vis(fs, path)).Some?
    ensures var p' := OnRead(env, p, path, Vis(fs, path)).value;
      Acting(p') ==> ProcAllows(fs, p', cap)
  {
    if p.phase.Locked? {
      LoadedLogIsCovered(fs, p.cfg.log, cap);
    } else if p.phase.GotState? && p.cfg.cap == cap {
      ReadBesideKeepsAllows(fs, p, cap);
    } else {
      ReadOtherKeepsAllows(env, fs, p, path, Vis(fs, path), cap);
    }
  }

  lemma RenameKeepsCover(fs: Files, fs': Files, p: Proc, path: Path, c: Content, ok: bool, cap: Digest)
    requires Renamed(fs, path, c, ok, fs') && Acting(p)
    requires CountCoversLog(fs, p.cfg.log, cap) && ProcAllows(fs, p, cap)
    requires OnRename(p, path, c, ok).Some?
    ensures CountCoversLog(fs', p.cfg.log, cap)
  {
    var log := p.cfg.log;
    if path == LogFile(log) {
      RenamedElsewhere(fs, path, c, ok, fs', BesideCount(log, cap));
      assert BesideCovers(fs, log, cap, Allows(EntriesOf(c), cap));
    } else if path == BesideCount(log, cap) {
      RenamedElsewhere(fs, path, c, ok, fs', LogFile(log));
      forall l <- Maybe(fs', LogFile(log))
        ensures BesideCovers(fs', log, cap, Allows(EntriesOf(l), cap))
      {
        assert BesideCovers(fs, log, cap, Allows(EntriesOf(l), cap));
        assert Covers(c, cap, Allows(EntriesOf(l), cap));
      }
    } else {
      RenamedElsewhere(fs, path, c, ok, fs', LogFile(log));
      RenamedElsewhere(fs, path, c, ok, fs', BesideCount(log, cap));
    }
  }

  lemma RenameLogKeepsAllows(fs: Files, fs': Files, p: Proc, c: Content, ok: bool, cap: Digest)
    requires Renamed(fs, LogFile(p.cfg.log), c, ok, fs') && Acting(p) && ProcAllows(fs, p, cap)
    requires OnRename(p, LogFile(p.cfg.log), c, ok).Some?
    ensures var p' := OnRename(p, LogFile(p.cfg.log), c, ok).value;
      Acting(p') ==> ProcAllows(fs', p', cap)
  {
    RenamedElsewhere(fs, LogFile(p.cfg.log), c, ok, fs', BesideCount(p.cfg.log, cap));
    assert EntriesOf(c) == p.entries;
  }

  lemma RenameBesideKeepsAllows(fs: Files, fs': Files, p: Proc, c: Content, ok: bool, cap: Digest)
    requires Renamed(fs, BesideCount(p.cfg.log, cap), c, ok, fs') && Acting(p) && ProcAllows(fs, p, cap)
    requires OnRename(p, BesideCount(p.cfg.log, cap), c, ok).Some?
    ensures var p' := OnRename(p, BesideCount(p.cfg.log, cap), c, ok).value;
      Acting(p') ==> ProcAllows(fs', p', cap)
  {
    RenamedElsewhere(fs, BesideCount(p.cfg.log, cap), c, ok, fs', LogFile(p.cfg.log));
  }

  lemma RenameKeepsAllows(fs: Files, fs': Files, p: Proc, path: Path, c: Content, ok: bool, cap: Digest)
    requires Renamed(fs, path, c, ok, fs') && Acting(p) && ProcAllows(fs, p, cap)
    requires OnRename(p, path, c, ok).Some?
    ensures var p' := OnRename(p, path, c, ok).value;
      Acting(p') ==> ProcAllows(fs', p', cap)
  {
    var log := p.cfg.log;
    if path == LogFile(log) {
      RenameLogKeepsAllows(fs, fs', p, c, ok, cap);
    } else if path == BesideCount(log, cap) {
      RenameBesideKeepsAllows(fs, fs', p, c, ok, cap);
    } else {
      RenamedElsewhere(fs, path, c, ok, fs', LogFile(log));
      RenamedElsewhere(fs, path, c, ok, fs', BesideCount(log, cap));
    }
  }

  lemma SyncKeepsCover(fs: Files, fs': Files, d: Dir, ok: bool, log: LogPath, cap: Digest)
    requires Plausible(fs) && Synced(fs, d, ok, fs') && CountCoversLog(fs, log, cap)
    ensures CountCoversLog(fs', log, cap)
  {
    SyncedAt(fs, d, ok, fs', LogFile(log));
    SyncedAt(fs, d, ok, fs', BesideCount(log, cap));
  }

  lemma SyncKeepsAllows(fs: Files, fs': Files, p: Proc, d: Dir, ok: bool, cap: Digest)
    requires Plausible(fs) && Synced(fs, d, ok, fs') && Acting(p)
    requires ProcAllows(fs, p, cap) && OnSync(p, d, ok).Some?
    ensures var p' := OnSync(p, d, ok).value;
      Acting(p') ==> ProcAllows(fs', p', cap)
  {
    SyncedAt(fs, d, ok, fs', LogFile(p.cfg.log));
    SyncedAt(fs, d, ok, fs', BesideCount(p.cfg.log, cap));
  }

  lemma DecideKeepsAllows(env: Env, fs: Files, p: Proc, added: seq<Entry>, allow: bool, micro: nat, cap: Digest)
    requires ProcAllows(fs, p, cap)
    requires OnDecide(env, p, added, allow, micro).Some?
    ensures ProcAllows(fs, OnDecide(env, p, added, allow, micro).value, cap)
  {
    AllowsAppend(p.entries, added, cap);
  }

  lemma OtherEffectsAreQuiet(env: Env, p: Proc, e: Effect, cap: Digest)
    requires !e.Read? && !e.Rename? && !e.Sync? && !e.Decide? && LocalStep(env, p, e).Some?
    ensures var p' := LocalStep(env, p, e).value;
      Acting(p') ==> Quiet(p, p', cap)
  {
  }

  lemma OtherEffectsKeepAllows(env: Env, fs: Files, p: Proc, e: Effect, cap: Digest)
    requires Acting(p) && ProcAllows(fs, p, cap)
    requires !e.Read? && !e.Rename? && !e.Sync? && LocalStep(env, p, e).Some?
    ensures var p' := LocalStep(env, p, e).value;
      Acting(p') ==> ProcAllows(fs, p', cap)
  {
    var p' := LocalStep(env, p, e).value;
    if e.Decide? {
      DecideKeepsAllows(env, fs, p, e.added, e.allow, e.micro, cap);
    } else if Acting(p') {
      OtherEffectsAreQuiet(env, p, e, cap);
      QuietKeepsAllows(fs, p, p', cap);
    }
  }

  lemma SelfKeepsAllows(env: Env, s: State, pid: Pid, p: Proc, e: Effect, s': State, cap: Digest)
    requires Effected(s, pid, p.cfg, e, s') && Plausible(s.files) && LocalStep(env, p, e).Some? && Acting(p)
    requires CountCoversLog(s.files, p.cfg.log, cap) && ProcAllows(s.files, p, cap)
    ensures CountCoversLog(s'.files, p.cfg.log, cap)
    ensures var p' := LocalStep(env, p, e).value;
      Acting(p') ==> ProcAllows(s'.files, p', cap)
  {
    match e
    case Read(path, c) => ReadKeepsAllows(env, s.files, p, path, cap);
    case Rename(path, c, ok) =>
      RenameKeepsCover(s.files, s'.files, p, path, c, ok, cap);
      RenameKeepsAllows(s.files, s'.files, p, path, c, ok, cap);
    case Sync(d, ok) =>
      SyncKeepsCover(s.files, s'.files, d, ok, p.cfg.log, cap);
      SyncKeepsAllows(s.files, s'.files, p, d, ok, cap);
    case _ => OtherEffectsKeepAllows(env, s.files, p, e, cap);
  }

  lemma OthersKeepAllows(s: State, pid: Pid, p': Proc, s': State, log: LogPath, cap: Digest)
    requires LockInv(s) && !s.outside && AllowInv(s, log, cap) && pid in s.procs && Plausible(s'.files)
    requires var p := s.procs[pid];
      && s'.procs == s.procs[pid := p'] && p'.cfg == p.cfg
      && (LogFrame(s.files, s'.files, log, cap) ||
          (p.cfg.log == log && HasLogLock(p.phase) && CountCoversLog(s'.files, log, cap)))
      && (Acting(p') && p.cfg.log == log ==> ProcAllows(s'.files, p', cap))
    ensures AllowInv(s', log, cap)
  {
    forall q <- s'.procs | q != pid && Acting(s'.procs[q]) && s'.procs[q].cfg.log == log
      ensures ProcAllows(s'.files, s'.procs[q], cap)
    {
      assert ProcAllows(s.files, s.procs[q], cap);
      if LogFrame(s.files, s'.files, log, cap) {
        FrameKeepsAllows(s.files, s'.files, s.procs[q], cap);
      } else {
        LocksExclude(s, pid, q);
      }
    }
  }

  lemma ActKeepsAllows(env: Env, s: State, pid: Pid, e: Effect, s': State, log: LogPath, cap: Digest)
    requires LockInv(s) && !s.outside && AllowInv(s, log, cap) && NextBy(env, s, Act(pid, e), s')
    ensures AllowInv(s', log, cap)
  {
    var p := s.procs[pid];
    EffectKeepsPlausible(s, pid, p.cfg, e, s');
    LocalStepKeepsConfig(env, p, e);
    if Acting(p) && p.cfg.log == log {
      SelfKeepsAllows(env, s, pid, p, e, s', cap);
    }
    if !(p.cfg.log == log && HasLogLock(p.phase)) {
      StrangerFramesLog(env, s, pid, p, e, s', log, cap);
    }
    OthersKeepAllows(s, pid, LocalStep(env, p, e).value, s', log, cap);
  }

  lemma NextKeepsAllows(env: Env, s: State, step: Step, s': State, log: LogPath, cap: Digest)
    requires LockInv(s) && !s.outside && AllowInv(s, log, cap) && NextBy(env, s, step, s')
    ensures AllowInv(s', log, cap)
  {
    match step
    case Act(pid, e) => ActKeepsAllows(env, s, pid, e, s', log, cap);
    case PowerLoss =>
      PowerLostAt(s.files, s'.files, LogFile(log));
      PowerLostAt(s.files, s'.files, BesideCount(log, cap));
    case _ =>
  }

  // ---- the acting gateway: checkpoints ----

  lemma ReadKeepsAnchored(env: Env, fs: Files, sent: set<(LogPath, Head)>, p: Proc, path: Path)
    requires Plausible(fs) && Acting(p) && FilesAnchored(env, fs, sent, p.cfg.log) && ProcAnchored(env, fs, sent, p)
    requires OnRead(env, p, path, Vis(fs, path)).Some?
    ensures var p' := OnRead(env, p, path, Vis(fs, path)).value;
      Acting(p') ==> ProcAnchored(env, fs, sent, p')
  {
    VisIsPlausible(fs, LogFile(p.cfg.log));
  }

  lemma RenameLogKeepsAnchored(env: Env, fs: Files, fs': Files, sent: set<(LogPath, Head)>, p: Proc, c: Content,
                               ok: bool)
    requires Renamed(fs, LogFile(p.cfg.log), c, ok, fs') && Acting(p)
    requires FilesAnchored(env, fs, sent, p.cfg.log) && ProcAnchored(env, fs, sent, p)
    requires OnRename(p, LogFile(p.cfg.log), c, ok).Some?
    ensures FilesAnchored(env, fs', sent, p.cfg.log)
    ensures var p' := OnRename(p, LogFile(p.cfg.log), c, ok).value;
      Acting(p') ==> ProcAnchored(env, fs', sent, p')
  {
    RenamedElsewhere(fs, LogFile(p.cfg.log), c, ok, fs', RecordFile(p.cfg.log));
    assert EntriesOf(c) == p.entries;
  }

  lemma RenameElsewhereKeepsProc(env: Env, fs: Files, fs': Files, sent: set<(LogPath, Head)>, p: Proc, path: Path,
                                 c: Content, ok: bool)
    requires path != LogFile(p.cfg.log) && Shrinks(fs, fs', LogFile(p.cfg.log)) && Acting(p)
    requires ProcAnchored(env, fs, sent, p) && OnRename(p, path, c, ok).Some?
    ensures var p' := OnRename(p, path, c, ok).value;
      Acting(p') ==> ProcAnchored(env, fs', sent, p')
  {
  }

  // The record file only ever gets a head this gateway sent.
  lemma RenameKeepsFilesAnchored(env: Env, fs: Files, fs': Files, sent: set<(LogPath, Head)>, p: Proc, path: Path,
                                 c: Content, ok: bool)
    requires path != LogFile(p.cfg.log) && Renamed(fs, path, c, ok, fs')
    requires FilesAnchored(env, fs, sent, p.cfg.log) && (forall h <- p.heads :: (p.cfg.log, h) in sent)
    requires OnRename(p, path, c, ok).Some?
    ensures FilesAnchored(env, fs', sent, p.cfg.log)
  {
    RenamedElsewhere(fs, path, c, ok, fs', LogFile(p.cfg.log));
    if path == RecordFile(p.cfg.log) {
      assert RecordIsSent(sent, p.cfg.log, c);
    } else {
      RenamedElsewhere(fs, path, c, ok, fs', RecordFile(p.cfg.log));
    }
  }

  lemma RenameKeepsAnchored(env: Env, fs: Files, fs': Files, sent: set<(LogPath, Head)>, p: Proc, path: Path,
                            c: Content, ok: bool)
    requires Renamed(fs, path, c, ok, fs') && Acting(p)
    requires FilesAnchored(env, fs, sent, p.cfg.log) && ProcAnchored(env, fs, sent, p)
    requires OnRename(p, path, c, ok).Some?
    ensures FilesAnchored(env, fs', sent, p.cfg.log)
    ensures var p' := OnRename(p, path, c, ok).value;
      Acting(p') ==> ProcAnchored(env, fs', sent, p')
  {
    if path == LogFile(p.cfg.log) {
      RenameLogKeepsAnchored(env, fs, fs', sent, p, c, ok);
    } else {
      RenamedElsewhere(fs, path, c, ok, fs', LogFile(p.cfg.log));
      RenameElsewhereKeepsProc(env, fs, fs', sent, p, path, c, ok);
      RenameKeepsFilesAnchored(env, fs, fs', sent, p, path, c, ok);
    }
  }

  lemma SyncKeepsFilesAnchored(env: Env, fs: Files, fs': Files, sent: set<(LogPath, Head)>, log: LogPath, d: Dir,
                               ok: bool)
    requires Plausible(fs) && Synced(fs, d, ok, fs') && FilesAnchored(env, fs, sent, log)
    ensures FilesAnchored(env, fs', sent, log)
  {
    SyncedAt(fs, d, ok, fs', LogFile(log));
    SyncedAt(fs, d, ok, fs', RecordFile(log));
  }

  lemma SyncKeepsAnchored(env: Env, fs: Files, fs': Files, sent: set<(LogPath, Head)>, p: Proc, d: Dir, ok: bool)
    requires Plausible(fs) && Synced(fs, d, ok, fs') && Acting(p)
    requires ProcAnchored(env, fs, sent, p) && OnSync(p, d, ok).Some?
    ensures var p' := OnSync(p, d, ok).value;
      Acting(p') ==> ProcAnchored(env, fs', sent, p')
  {
    SyncedAt(fs, d, ok, fs', LogFile(p.cfg.log));
  }

  lemma OtherEffectsKeepAnchored(env: Env, fs: Files, sent: set<(LogPath, Head)>, p: Proc, e: Effect)
    requires Acting(p) && FilesAnchored(env, fs, sent, p.cfg.log) && ProcAnchored(env, fs, sent, p)
    requires !e.Read? && !e.Rename? && !e.Sync? && !e.Send? && LocalStep(env, p, e).Some?
    ensures var p' := LocalStep(env, p, e).value;
      Acting(p') ==> ProcAnchored(env, fs, sent, p')
  {
    if e.Decide? {
      forall h: Head | (p.cfg.log, h) in sent
        ensures Anchored(env, h, p.entries + e.added)
      {
        assert Anchored(env, h, p.entries);
        assert (p.entries + e.added)[..h.n] == p.entries[..h.n];
      }
      assert (p.entries + e.added)[..p.saved] == p.entries[..p.saved];
    }
  }

  lemma SendKeepsAnchored(env: Env, fs: Files, sent: set<(LogPath, Head)>, p: Proc, h: Head)
    requires Acting(p) && FilesAnchored(env, fs, sent, p.cfg.log) && ProcAnchored(env, fs, sent, p)
    requires OnSend(env, p, h).Some? && !p.job.Boot?
    ensures var sent' := sent + {(p.cfg.log, h)};
      && FilesAnchored(env, fs, sent', p.cfg.log)
      && ProcAnchored(env, fs, sent', OnSend(env, p, h).value)
  {
    assert p.entries[..h.n] == p.entries;
    forall l <- Maybe(fs, LogFile(p.cfg.log))
      ensures Anchored(env, h, EntriesOf(l))
    {
      assert KeepsPrefix(p.entries, l, p.saved);
    }
  }

  lemma SelfKeepsAnchored(env: Env, s: State, pid: Pid, p: Proc, e: Effect, s': State)
    requires Effected(s, pid, p.cfg, e, s') && Plausible(s.files) && LocalStep(env, p, e).Some? && Acting(p)
    requires FilesAnchored(env, s.files, s.sent, p.cfg.log) && ProcAnchored(env, s.files, s.sent, p)
    ensures FilesAnchored(env, s'.files, s'.sent, p.cfg.log)
    ensures var p' := LocalStep(env, p, e).value;
      Acting(p') ==> ProcAnchored(env, s'.files, s'.sent, p')
  {
    match e
    case Read(path, c) => ReadKeepsAnchored(env, s.files, s.sent, p, path);
    case Rename(path, c, ok) => RenameKeepsAnchored(env, s.files, s'.files, s.sent, p, path, c, ok);
    case Sync(d, ok) =>
      SyncKeepsFilesAnchored(env, s.files, s'.files, s.sent, p.cfg.log, d, ok);
      SyncKeepsAnchored(env, s.files, s'.files, s.sent, p, d, ok);
    case Send(h) => SendKeepsAnchored(env, s.files, s.sent, p, h);
    case _ => OtherEffectsKeepAnchored(env, s.files, s.sent, p, e);
  }

  lemma OthersKeepAnchored(env: Env, s: State, pid: Pid, p': Proc, s': State, log: LogPath)
    requires LockInv(s) && !s.outside && SentInv(env, s, log) && pid in s.procs && Plausible(s'.files)
    requires var p := s.procs[pid];
      && s'.procs == s.procs[pid := p'] && p'.cfg == p.cfg
      && ((LogFrame(s.files, s'.files, log, p.cfg.cap) && forall h: Head :: (log, h) in s'.sent <==> (log, h) in s.sent)
          || (p.cfg.log == log && HasLogLock(p.phase) && FilesAnchored(env, s'.files, s'.sent, log)))
      && (Acting(p') && p.cfg.log == log ==> ProcAnchored(env, s'.files, s'.sent, p'))
    ensures SentInv(env, s', log)
  {
    var p := s.procs[pid];
    forall q <- s'.procs | q != pid && Acting(s'.procs[q]) && s'.procs[q].cfg.log == log
      ensures ProcAnchored(env, s'.files, s'.sent, s'.procs[q])
    {
      assert ProcAnchored(env, s.files, s.sent, s.procs[q]);
      if p.cfg.log == log && HasLogLock(p.phase) {
        LocksExclude(s, pid, q);
        assert !HasLogLock(s.procs[q].phase);
        assert s.procs[q].job.Boot? && s.procs[q].heads == {};
      } else {
        FrameKeepsAnchored(env, s.files, s'.files, s.sent, s'.sent, s.procs[q]);
      }
    }
  }

  lemma ActKeepsAnchored(env: Env, s: State, pid: Pid, e: Effect, s': State, log: LogPath)
    requires LockInv(s) && !s.outside && SentInv(env, s, log) && NextBy(env, s, Act(pid, e), s')
    ensures SentInv(env, s', log)
  {
    var p := s.procs[pid];
    EffectKeepsPlausible(s, pid, p.cfg, e, s');
    LocalStepKeepsConfig(env, p, e);
    if Acting(p) && p.cfg.log == log {
      SelfKeepsAnchored(env, s, pid, p, e, s');
    }
    if !(p.cfg.log == log && HasLogLock(p.phase)) {
      StrangerFramesLog(env, s, pid, p, e, s', log, p.cfg.cap);
    }
    OthersKeepAnchored(env, s, pid, LocalStep(env, p, e).value, s', log);
  }

  lemma NextKeepsAnchored(env: Env, s: State, step: Step, s': State, log: LogPath)
    requires LockInv(s) && !s.outside && SentInv(env, s, log) && NextBy(env, s, step, s')
    ensures SentInv(env, s', log)
  {
    match step
    case Act(pid, e) => ActKeepsAnchored(env, s, pid, e, s', log);
    case PowerLoss =>
      PowerLostAt(s.files, s'.files, LogFile(log));
      PowerLostAt(s.files, s'.files, RecordFile(log));
    case _ =>
  }

  // ---- every file keeps the shape its path calls for ----

  predicate Typed(p: Path, c: Content) {
    c.Absent? ||
    match p
    case LogFile(_) => c.Log?
    case RecordFile(_) => c.Record?
    case _ => c.Count? && c.allows >= 0
  }

  ghost predicate TypedInv(s: State) {
    forall p <- s.files, c <- s.files[p].maybe + {s.files[p].vis} :: Typed(p, c)
  }

  lemma LocalRenameIsTyped(p: Proc, path: Path, c: Content, ok: bool)
    requires OnRename(p, path, c, ok).Some?
    ensures Typed(path, c)
  {
  }

  lemma EffectKeepsTyped(env: Env, s: State, pid: Pid, p: Proc, e: Effect, s': State)
    requires TypedInv(s) && Effected(s, pid, p.cfg, e, s') && LocalStep(env, p, e).Some?
    ensures TypedInv(s')
  {
    if e.Rename? {
      LocalRenameIsTyped(p, e.path, e.content, e.ok);
    }
  }

  lemma NextKeepsTyped(env: Env, s: State, step: Step, s': State)
    requires TypedInv(s) && NextBy(env, s, step, s')
    ensures TypedInv(s')
  {
    match step
    case Act(pid, e) => EffectKeepsTyped(env, s, pid, s.procs[pid], e, s');
    case _ =>
  }
}
