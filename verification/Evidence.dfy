// No ALLOW is settled before its entry is on disk.
module Evidence {
  import opened Wrappers
  import opened Files
  import opened Machine
  import opened LogProofs
  import opened RunTheorems
  import opened Fencing

  // The decision being acted on is the log's last entry, and by the time it is
  // settled the whole log has been saved.
  predicate LogsItsDecision(p: Proc) {
    && (p.job.Allowed? ==>
          p.entries != [] && p.entries[|p.entries| - 1].cap == p.cfg.cap && p.entries[|p.entries| - 1].allow)
    && (p.phase.Settling? ==> p.job.Allowed? && p.saved == |p.entries|)
  }

  lemma LocalStepLogsItsDecision(env: Env, p: Proc, e: Effect)
    requires LocalStep(env, p, e).Some? && LogsItsDecision(p) && BootUntilRunning(p)
    ensures LogsItsDecision(LocalStep(env, p, e).value)
  {
  }

  predicate Honest(p: Proc) {
    LogsItsDecision(p) && BootUntilRunning(p)
  }

  ghost predicate AllHonest(s: State) {
    forall q <- s.procs :: Honest(s.procs[q])
  }

  lemma LocalStepKeepsHonest(env: Env, p: Proc, e: Effect)
    requires LocalStep(env, p, e).Some? && Honest(p)
    ensures Honest(LocalStep(env, p, e).value)
  {
    LocalStepLogsItsDecision(env, p, e);
    LocalStepKeepsBoot(env, p, e);
  }

  lemma KilledOrNewIsHonest(p: Proc, cfg: Config)
    ensures Honest(p) ==> Honest(Killed(p))
    ensures Honest(NewProc(cfg))
  {
  }

  // Whatever a step does to a gateway's own state, in one of four ways.
  lemma NextOfProc(env: Env, s: State, step: Step, s': State, q: Pid)
    requires NextBy(env, s, step, s') && q in s'.procs
    ensures || (q in s.procs && s'.procs[q] == s.procs[q])
            || (q in s.procs && s'.procs[q] == Killed(s.procs[q]))
            || (step.Spawn? && s'.procs[q] == NewProc(step.cfg))
            || (step.Act? && step.pid == q && q in s.procs && LocalStep(env, s.procs[q], step.e) == Some(s'.procs[q]))
  {
  }

  lemma NextKeepsHonest(env: Env, s: State, step: Step, s': State)
    requires NextBy(env, s, step, s') && AllHonest(s)
    ensures AllHonest(s')
  {
    forall q <- s'.procs
      ensures Honest(s'.procs[q])
    {
      NextOfProc(env, s, step, s', q);
      if q in s.procs {
        KilledOrNewIsHonest(s.procs[q], s.procs[q].cfg);
      }
      if step.Act? && q == step.pid {
        LocalStepKeepsHonest(env, s.procs[q], step.e);
      } else if step.Spawn? {
        KilledOrNewIsHonest(s'.procs[q], step.cfg);
      }
    }
  }

  lemma RunLogsItsDecisions(env: Env, run: seq<State>, k: nat, pid: Pid)
    requires IsRun(env, run) && k < |run| && pid in run[k].procs
    ensures LogsItsDecision(run[k].procs[pid])
  {
    var inv := (s: State) => AllHonest(s);
    forall s, step, s' | inv(s) && NextBy(env, s, step, s')
      ensures inv(s')
    {
      NextKeepsHonest(env, s, step, s');
    }
    HoldsAlongRun(env, run, k, inv);
    assert AllHonest(run[k]);
  }

  // When a gateway settles, every log that a power loss may leave begins with the
  // entries it has in memory, the last of which is that ALLOW.
  lemma SettledIsLogged(env: Env, run: seq<State>, k: nat, pid: Pid, e: Effect, l: Content)
    requires IsRun(env, run) && k + 1 < |run| && NextBy(env, run[k], Act(pid, e), run[k + 1]) && e.Settle?
    requires !run[k].outside && NoRecord(run[0], run[k].procs[pid].cfg.log)
    requires l in Maybe(run[k].files, LogFile(run[k].procs[pid].cfg.log))
    ensures var p := run[k].procs[pid];
      && p.entries != [] && p.entries <= EntriesOf(l)
      && p.entries[|p.entries| - 1].allow && p.entries[|p.entries| - 1].cap == p.cfg.cap
  {
    var p := run[k].procs[pid];
    RunLogsItsDecisions(env, run, k, pid);
    RunKeepsAnchored(env, run, k, p.cfg.log);
    assert ProcAnchored(env, run[k].files, run[k].sent, p);
    assert KeepsPrefix(p.entries, l, p.saved);
  }
}
