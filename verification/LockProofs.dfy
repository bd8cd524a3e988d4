// Who holds which lock, in every reachable state.
module LockProofs {
  import opened Machine

  predicate Acting(p: Proc) {
    !p.phase.Failing? && !p.phase.Dead?
  }

  predicate OpenedLogLock(ph: Phase) {
    !(ph.Start? || ph.Failing? || ph.Dead?)
  }

  predicate HasLogLock(ph: Phase) {
    OpenedLogLock(ph) && !ph.OpenedLog?
  }

  predicate OpenedCapLock(ph: Phase) {
    HasLogLock(ph) && !(ph.FlockedLog? || ph.HeldLog?)
  }

  predicate HasCapLock(ph: Phase) {
    OpenedCapLock(ph) && !ph.OpenedCap?
  }

  // Past openLogState: both locks held and every file read and written once.
  predicate PastOpen(ph: Phase) {
    ph in {Running, CheckLog, SaveLog, SyncLog, Settling, SyncRecord} || ph.CheckCap?
  }

  ghost predicate ProcLocks(s: State, pid: Pid, p: Proc) {
    && (HasLogLock(p.phase) ==> p.logIno in s.held && s.held[p.logIno] == pid)
    && (HasCapLock(p.phase) ==> p.capIno in s.held && s.held[p.capIno] == pid)
    && (!s.outside && OpenedLogLock(p.phase) ==>
          LogLock(p.cfg.log) in s.names && s.names[LogLock(p.cfg.log)] == p.logIno)
    && (!s.outside && OpenedCapLock(p.phase) ==>
          CapLock(p.cfg.dir, p.cfg.cap) in s.names && s.names[CapLock(p.cfg.dir, p.cfg.cap)] == p.capIno)
  }

  ghost predicate LockInv(s: State) {
    forall pid <- s.procs :: ProcLocks(s, pid, s.procs[pid])
  }

  lemma OthersKeepLocks(s: State, pid: Pid, cfg: Config, e: Effect, s': State, q: Pid, p: Proc)
    requires Effected(s, pid, cfg, e, s') && q != pid && ProcLocks(s, q, p)
    ensures ProcLocks(s', q, p)
  {
  }

  // No other effect opens, takes or checks a lock.
  lemma SameLockPhase(env: Env, p: Proc, e: Effect)
    requires !e.OpenLock? && !e.Flock? && !e.CheckName?
    requires LocalStep(env, p, e).Some? && (p.phase.Failing? ==> e.Close?) && !p.phase.Dead?
    ensures var p' := LocalStep(env, p, e).value;
      && p'.cfg == p.cfg && p'.logIno == p.logIno && p'.capIno == p.capIno
      && (if e.Close? then p'.phase.Failing? else HasCapLock(p.phase))
  {
  }

  lemma SelfKeepsLocks(env: Env, s: State, pid: Pid, p: Proc, e: Effect, s': State)
    requires Effected(s, pid, p.cfg, e, s') && ProcLocks(s, pid, p)
    requires LocalStep(env, p, e).Some? && (p.phase.Failing? ==> e.Close?) && !p.phase.Dead?
    ensures ProcLocks(s', pid, LocalStep(env, p, e).value)
  {
    match e
    case OpenLock(l, i) =>
    case Flock(i, ok) =>
    case CheckName(l, named) =>
    case _ => SameLockPhase(env, p, e);
  }

  lemma NextKeepsLocks(env: Env, s: State, step: Step, s': State)
    requires LockInv(s) && NextBy(env, s, step, s')
    ensures LockInv(s')
  {
    forall q <- s'.procs
      ensures ProcLocks(s', q, s'.procs[q])
    {
      if step.Act? {
        var pid := step.pid;
        assert ProcLocks(s, pid, s.procs[pid]) && ProcLocks(s, q, s.procs[q]);
        if q == pid {
          SelfKeepsLocks(env, s, pid, s.procs[pid], step.e, s');
        } else {
          OthersKeepLocks(s, pid, s.procs[pid].cfg, step.e, s', q, s.procs[q]);
        }
      } else if q in s.procs {
        assert ProcLocks(s, q, s.procs[q]);
      }
    }
  }

  predicate SharesLogLock(p: Proc, q: Proc) {
    HasLogLock(p.phase) && HasLogLock(q.phase) && p.cfg.log == q.cfg.log
  }

  predicate SharesCapLock(p: Proc, q: Proc) {
    HasCapLock(p.phase) && HasCapLock(q.phase) && p.cfg.dir == q.cfg.dir && p.cfg.cap == q.cfg.cap
  }

  // Two gateways that both hold the lock of one log, or of one capability in one
  // state directory, are the same gateway, unless someone replaced a lock file.
  lemma LocksExclude(s: State, a: Pid, b: Pid)
    requires LockInv(s) && !s.outside && a in s.procs && b in s.procs
    ensures SharesLogLock(s.procs[a], s.procs[b]) || SharesCapLock(s.procs[a], s.procs[b]) ==> a == b
  {
    assert ProcLocks(s, a, s.procs[a]) && ProcLocks(s, b, s.procs[b]);
  }

  // stillHeld: the name still refers to the file this gateway holds.
  ghost predicate StillHeld(s: State, pid: Pid, l: Lock) {
    && pid in s.procs && l in s.names
    && var p := s.procs[pid];
    || (HasLogLock(p.phase) && l == LogLock(p.cfg.log) && s.names[l] == p.logIno)
    || (HasCapLock(p.phase) && l == CapLock(p.cfg.dir, p.cfg.cap) && s.names[l] == p.capIno)
  }
}
