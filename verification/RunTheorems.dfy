// What holds over whole runs: any number of gateways, any interleaving, a crash
// or a power loss or a failed write between any two effects.
module RunTheorems {
  import opened Files
  import opened Machine
  import opened LockProofs
  import opened CountProofs
  import opened LogProofs

  // Induction over a run, once for every invariant.
  lemma {:induction false} HoldsAlongRun(env: Env, run: seq<State>, i: nat, inv: State -> bool)
    requires IsRun(env, run) && i < |run| && inv(run[0])
    requires forall s, step, s' :: inv(s) && NextBy(env, s, step, s') ==> inv(s')
    ensures inv(run[i])
  {
    if i > 0 {
      HoldsAlongRun(env, run, i - 1, inv);
      assert Next(env, run[i - 1], run[i]);
    }
  }

  lemma RunKeepsLocks(env: Env, run: seq<State>, i: nat)
    requires IsRun(env, run) && i < |run|
    ensures LockInv(run[i])
  {
    var inv := (s: State) => LockInv(s);
    forall s, step, s' | inv(s) && NextBy(env, s, step, s')
      ensures inv(s')
    {
      NextKeepsLocks(env, s, step, s');
    }
    HoldsAlongRun(env, run, i, inv);
  }

  lemma OutsideStays(env: Env, s: State, step: Step, s': State)
    requires NextBy(env, s, step, s') && s.outside
    ensures s'.outside
  {
  }

  // The same for what holds as long as no lock file is replaced from outside.
  lemma HoldsInside(env: Env, run: seq<State>, i: nat, inv: State -> bool)
    requires IsRun(env, run) && i < |run| && inv(run[0])
    requires forall s, step, s' :: LockInv(s) && !s.outside && inv(s) && NextBy(env, s, step, s') ==> inv(s')
    ensures !run[i].outside ==> inv(run[i])
  {
    var held := (s: State) => LockInv(s) && (s.outside || inv(s));
    forall s, step, s' | held(s) && NextBy(env, s, step, s')
      ensures held(s')
    {
      NextKeepsLocks(env, s, step, s');
      if s.outside {
        OutsideStays(env, s, step, s');
      }
    }
    HoldsAlongRun(env, run, i, held);
  }

  lemma InitCount(env: Env, s: State, a: Anchor)
    requires Init(s)
    ensures CountInv(env, s, a)
  {
  }

  lemma RunKeepsCount(env: Env, run: seq<State>, i: nat, a: Anchor)
    requires IsRun(env, run) && i < |run|
    ensures !run[i].outside ==> CountInv(env, run[i], a)
  {
    var inv := (s: State) => CountInv(env, s, a);
    forall s, step, s' | LockInv(s) && !s.outside && inv(s) && NextBy(env, s, step, s')
      ensures inv(s')
    {
      NextKeepsCount(env, s, step, s', a);
    }
    InitCount(env, run[0], a);
    HoldsInside(env, run, i, inv);
  }

  lemma InitAllows(env: Env, s: State, log: LogPath, cap: Digest)
    requires Init(s) && CountCoversLog(s.files, log, cap)
    ensures AllowInv(s, log, cap)
  {
  }

  lemma RunKeepsAllows(env: Env, run: seq<State>, i: nat, log: LogPath, cap: Digest)
    requires IsRun(env, run) && i < |run| && CountCoversLog(run[0].files, log, cap)
    ensures !run[i].outside ==> AllowInv(run[i], log, cap)
  {
    var inv := (s: State) => AllowInv(s, log, cap);
    forall s, step, s' | LockInv(s) && !s.outside && inv(s) && NextBy(env, s, step, s')
      ensures inv(s')
    {
      NextKeepsAllows(env, s, step, s', log, cap);
    }
    InitAllows(env, run[0], log, cap);
    HoldsInside(env, run, i, inv);
  }

  // No checkpoint of this log has been recorded before the run begins.
  ghost predicate NoRecord(s: State, log: LogPath) {
    Maybe(s.files, RecordFile(log)) == {Absent}
  }

  lemma InitAnchored(env: Env, s: State, log: LogPath)
    requires Init(s) && NoRecord(s, log)
    ensures SentInv(env, s, log)
  {
  }

  lemma RunKeepsAnchored(env: Env, run: seq<State>, i: nat, log: LogPath)
    requires IsRun(env, run) && i < |run| && NoRecord(run[0], log)
    ensures !run[i].outside ==> SentInv(env, run[i], log)
  {
    var inv := (s: State) => SentInv(env, s, log);
    forall s, step, s' | LockInv(s) && !s.outside && inv(s) && NextBy(env, s, step, s')
      ensures inv(s')
    {
      NextKeepsAnchored(env, s, step, s', log);
    }
    InitAnchored(env, run[0], log);
    HoldsInside(env, run, i, inv);
  }

  lemma RunKeepsTyped(env: Env, run: seq<State>, i: nat)
    requires IsRun(env, run) && i < |run| && TypedInv(run[0])
    ensures TypedInv(run[i])
  {
    var inv := (s: State) => TypedInv(s);
    forall s, step, s' | inv(s) && NextBy(env, s, step, s')
      ensures inv(s')
    {
      NextKeepsTyped(env, s, step, s');
    }
    HoldsAlongRun(env, run, i, inv);
  }

  // ---- the theorems ----

  // Settle calls under one capability never exceed MaxPayments, counted over
  // every gateway on one state directory, whatever their logs, and separately
  // over every gateway on one log, whatever their state directories.
  lemma SettleCallsBounded(env: Env, run: seq<State>, i: nat, a: Anchor)
    requires IsRun(env, run) && i < |run| && !run[i].outside
    ensures CountSettled(run[i].settled, a) <= env.maxPayments(a.cap)
  {
    RunKeepsCount(env, run, i, a);
  }

  // At every instant, the count beside a log that a power loss would leave is at
  // least the ALLOW entries in the log it would leave, or refuses to load; and it
  // loads, if every file had the right kind of content when the run began.
  lemma DurableCountCoversLog(env: Env, run: seq<State>, i: nat, log: LogPath, cap: Digest, c: Content, l: Content)
    requires IsRun(env, run) && i < |run| && !run[i].outside
    requires CountCoversLog(run[0].files, log, cap)
    requires l in Maybe(run[i].files, LogFile(log)) && c in Maybe(run[i].files, BesideCount(log, cap))
    ensures LoadCount(c, cap).Some? ==> LoadCount(c, cap).value >= Allows(EntriesOf(l), cap)
    ensures TypedInv(run[0]) ==> LoadCount(c, cap).Some?
  {
    RunKeepsAllows(env, run, i, log, cap);
    assert BesideCovers(run[i].files, log, cap, Allows(EntriesOf(l), cap));
    assert Covers(c, cap, Allows(EntriesOf(l), cap));
    if TypedInv(run[0]) {
      RunKeepsTyped(env, run, i);
      assert Typed(BesideCount(log, cap), c);
    }
  }

  // Two checkpoints ever sent for one size of one log carry the same root, and
  // it is the root of the first n entries of every log the disk may hold.
  lemma OneRootPerSize(env: Env, run: seq<State>, i: nat, log: LogPath, h: Head, k: Head, l: Content)
    requires IsRun(env, run) && i < |run| && !run[i].outside && NoRecord(run[0], log)
    requires (log, h) in run[i].sent && (log, k) in run[i].sent && h.n == k.n
    requires l in Maybe(run[i].files, LogFile(log))
    ensures h.root == k.root
    ensures h.n <= |EntriesOf(l)| && env.rootOf(EntriesOf(l)[..h.n]) == h.root
  {
    RunKeepsAnchored(env, run, i, log);
    assert AllAnchored(env, run[i].sent, log, EntriesOf(l));
    assert Anchored(env, h, EntriesOf(l)) && Anchored(env, k, EntriesOf(l));
  }

  // A restart never refuses, from any state a run can reach and from whatever a
  // power loss leaves of it.
  lemma RestartNeverRefuses(env: Env, run: seq<State>, i: nat, cfg: Config, fs: Files)
    requires IsRun(env, run) && i < |run| && !run[i].outside
    requires TypedInv(run[0]) && NoRecord(run[0], cfg.log)
    requires fs == run[i].files || PowerLost(run[i].files, fs)
    ensures Admits(env, fs, cfg)
  {
    RunKeepsTyped(env, run, i);
    RunKeepsAnchored(env, run, i, cfg.log);
    var l, r := Vis(fs, LogFile(cfg.log)), Vis(fs, RecordFile(cfg.log));
    forall p: Path
      ensures Typed(p, Vis(fs, p))
    {
    }
    VisIsPlausible(run[i].files, LogFile(cfg.log));
    VisIsPlausible(run[i].files, RecordFile(cfg.log));
    assert AllAnchored(env, run[i].sent, cfg.log, EntriesOf(l));
    assert Typed(LogFile(cfg.log), l);
    assert Typed(StateCount(cfg.dir, cfg.cap), Vis(fs, StateCount(cfg.dir, cfg.cap)));
    assert Typed(BesideCount(cfg.log, cfg.cap), Vis(fs, BesideCount(cfg.log, cfg.cap)));
    assert Typed(LegacyCount(cfg.log), Vis(fs, LegacyCount(cfg.log)));
    if r.Record? {
      assert Anchored(env, Head(r.n, r.root), EntriesOf(l));
    }
  }

  // Two gateways are never both past openLogState on one log, or on one
  // capability in one state directory.
  lemma OneGatewayPerLogAndCapability(env: Env, run: seq<State>, i: nat, a: Pid, b: Pid)
    requires IsRun(env, run) && i < |run| && !run[i].outside
    requires a in run[i].procs && b in run[i].procs && a != b
    requires PastOpen(run[i].procs[a].phase) && PastOpen(run[i].procs[b].phase)
    ensures var p, q := run[i].procs[a].cfg, run[i].procs[b].cfg;
      p.log != q.log && (p.dir != q.dir || p.cap != q.cap)
  {
    RunKeepsLocks(env, run, i);
    LocksExclude(run[i], a, b);
  }

  // Even if lock files are replaced, at most one gateway passes stillHeld for
  // one lock name in any state.
  lemma StillHeldByOne(env: Env, run: seq<State>, i: nat, l: Lock, a: Pid, b: Pid)
    requires IsRun(env, run) && i < |run|
    requires StillHeld(run[i], a, l) && StillHeld(run[i], b, l)
    ensures a == b
  {
    RunKeepsLocks(env, run, i);
    assert ProcLocks(run[i], a, run[i].procs[a]) && ProcLocks(run[i], b, run[i].procs[b]);
  }

  // Nothing is read, and nothing but a lock file is opened, before both locks
  // are held; and no file is written by a gateway that does not hold both.
  lemma FilesTouchedUnderBothLocks(env: Env, run: seq<State>, i: nat, pid: Pid, e: Effect)
    requires IsRun(env, run) && i + 1 < |run| && NextBy(env, run[i], Act(pid, e), run[i + 1])
    requires e.Read? || e.Rename? || e.Settle? || e.Send?
    ensures var p := run[i].procs[pid];
      && p.logIno in run[i].held && run[i].held[p.logIno] == pid
      && p.capIno in run[i].held && run[i].held[p.capIno] == pid
  {
    RunKeepsLocks(env, run, i);
    assert ProcLocks(run[i], pid, run[i].procs[pid]);
    SameLockPhase(env, run[i].procs[pid], e);
  }
}
