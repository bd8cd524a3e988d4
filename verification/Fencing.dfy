// What the check of both lock names before every save is for: with lock files
// replaced at any time, a gateway still acts on a decision only if, since it made
// it, each of its lock names referred to the file it holds.
module Fencing {
  import opened Machine
  import opened LockProofs
  import opened RunTheorems

  // From the decision to the settle call.
  predicate Saving(ph: Phase) {
    || ph.CheckLog? || ph.CheckCap? || ph.CountState? || ph.SyncState? || ph.CountBeside? || ph.SyncBeside?
    || ph.SaveLog? || ph.SyncLog? || ph.Settling?
  }

  // It has decided, and is acting on that decision.
  predicate ActsOnDecision(p: Proc) {
    Saving(p.phase) && !p.job.Boot?
  }

  // In all of these states the gateway is acting on one and the same decision:
  // making another takes a state in which it is not.
  ghost predicate OneDecision(run: seq<State>, i: nat, k: nat, pid: Pid)
    requires k < |run|
  {
    forall m: nat :: i <= m <= k ==> pid in run[m].procs && ActsOnDecision(run[m].procs[pid])
  }

  ghost predicate LogNameHeld(run: seq<State>, i: nat, pid: Pid)
    requires i < |run|
  {
    pid in run[i].procs && StillHeld(run[i], pid, LogLock(run[i].procs[pid].cfg.log))
  }

  ghost predicate CapNameHeld(run: seq<State>, i: nat, pid: Pid)
    requires i < |run|
  {
    pid in run[i].procs && StillHeld(run[i], pid, CapLock(run[i].procs[pid].cfg.dir, run[i].procs[pid].cfg.cap))
  }

  // Since the decision, the log's lock name has been the gateway's, ...
  ghost predicate LogChecked(run: seq<State>, k: nat, pid: Pid)
    requires k < |run|
  {
    exists i: nat :: i < k && OneDecision(run, i, k, pid) && LogNameHeld(run, i, pid)
  }

  // ... and, at a later state, the capability's.
  ghost predicate Fenced(run: seq<State>, k: nat, pid: Pid)
    requires k < |run|
  {
    exists i: nat, j: nat ::
      i < j < k && OneDecision(run, i, k, pid) && LogNameHeld(run, i, pid) && CapNameHeld(run, j, pid)
  }

  // ---- what each step needs ----

  // Before the counts are first written.
  predicate Opening(ph: Phase) {
    || ph in {Start, OpenedLog, FlockedLog, HeldLog, OpenedCap, FlockedCap, Locked}
    || ph in {GotLog, WroteLog, GotState, GotBeside, GotLegacy}
  }

  // Counts are written at startup, or for a decision.
  predicate BootUntilRunning(p: Proc) {
    && (Opening(p.phase) ==> p.job.Boot?)
    && (PastOpen(p.phase) ==> !p.job.Boot?)
  }

  lemma LocalStepKeepsBoot(env: Env, p: Proc, e: Effect)
    requires LocalStep(env, p, e).Some? && BootUntilRunning(p)
    ensures BootUntilRunning(LocalStep(env, p, e).value)
  {
  }

  lemma RunKeepsBoot(env: Env, run: seq<State>, k: nat, pid: Pid)
    requires IsRun(env, run) && k < |run| && pid in run[k].procs
    ensures BootUntilRunning(run[k].procs[pid])
  {
    var inv := (s: State) => forall q <- s.procs :: BootUntilRunning(s.procs[q]);
    forall s, step, s' | inv(s) && NextBy(env, s, step, s')
      ensures inv(s')
    {
      if step.Act? {
        LocalStepKeepsBoot(env, s.procs[step.pid], step.e);
      }
    }
    HoldsAlongRun(env, run, k, inv);
  }

  // Passing the first check takes the log's lock name, ...
  lemma CheckingLog(env: Env, s: State, pid: Pid, e: Effect, s': State)
    requires NextBy(env, s, Act(pid, e), s') && s.procs[pid].phase.CheckLog? && s'.procs[pid].phase == CheckCap(false)
    ensures StillHeld(s, pid, LogLock(s.procs[pid].cfg.log))
  {
  }

  // ... and passing the second, after it, the capability's.
  lemma CheckingCap(env: Env, s: State, pid: Pid, e: Effect, s': State)
    requires NextBy(env, s, Act(pid, e), s') && s.procs[pid].phase.CheckCap? && s'.procs[pid].phase.CountState?
    ensures s.procs[pid].phase == CheckCap(false)
    ensures StillHeld(s, pid, CapLock(s.procs[pid].cfg.dir, s.procs[pid].cfg.cap))
  {
  }

  // Past both checks, and still acting on the decision they were made for.
  predicate PastChecks(p: Proc) {
    ActsOnDecision(p) && !p.phase.CheckLog? && !p.phase.CheckCap?
  }

  // Where a gateway can have come from.
  lemma BeforeSaving(env: Env, p: Proc, e: Effect)
    requires LocalStep(env, p, e).Some? && BootUntilRunning(p)
    ensures var p' := LocalStep(env, p, e).value;
      && (p'.phase == CheckCap(false) ==> p.phase.CheckLog? && !p.job.Boot?)
      && (PastChecks(p') ==> PastChecks(p) || (p.phase.CheckCap? && p'.phase.CountState? && !p.job.Boot?))
  {
  }

  ghost predicate Tracked(run: seq<State>, k: nat, pid: Pid)
    requires k < |run|
  {
    pid in run[k].procs ==>
      && (run[k].procs[pid].phase == CheckCap(false) ==> LogChecked(run, k, pid))
      && (PastChecks(run[k].procs[pid]) ==> Fenced(run, k, pid))
  }

  lemma OneDecisionExtends(run: seq<State>, i: nat, k: nat, pid: Pid)
    requires k + 1 < |run| && OneDecision(run, i, k, pid)
    requires pid in run[k + 1].procs && ActsOnDecision(run[k + 1].procs[pid])
    ensures OneDecision(run, i, k + 1, pid)
  {
  }

  lemma TrackedExtends(run: seq<State>, k: nat, pid: Pid)
    requires k + 1 < |run| && pid in run[k + 1].procs && ActsOnDecision(run[k + 1].procs[pid])
    ensures LogChecked(run, k, pid) ==> LogChecked(run, k + 1, pid)
    ensures Fenced(run, k, pid) ==> Fenced(run, k + 1, pid)
    ensures LogChecked(run, k, pid) && CapNameHeld(run, k, pid) ==> Fenced(run, k + 1, pid)
  {
    if LogChecked(run, k, pid) {
      var i: nat :| i < k && OneDecision(run, i, k, pid) && LogNameHeld(run, i, pid);
      OneDecisionExtends(run, i, k, pid);
    }
    if Fenced(run, k, pid) {
      var i: nat, j: nat :|
        i < j < k && OneDecision(run, i, k, pid) && LogNameHeld(run, i, pid) && CapNameHeld(run, j, pid);
      OneDecisionExtends(run, i, k, pid);
    }
  }

  lemma ActKeepsTracked(env: Env, run: seq<State>, k: nat, pid: Pid, e: Effect)
    requires k + 1 < |run| && NextBy(env, run[k], Act(pid, e), run[k + 1])
    requires BootUntilRunning(run[k].procs[pid]) && Tracked(run, k, pid)
    ensures Tracked(run, k + 1, pid)
  {
    var p, p' := run[k].procs[pid], run[k + 1].procs[pid];
    BeforeSaving(env, p, e);
    LocalStepKeepsBoot(env, p, e);
    if p'.phase == CheckCap(false) {
      CheckingLog(env, run[k], pid, e, run[k + 1]);
      assert OneDecision(run, k, k + 1, pid) && LogNameHeld(run, k, pid);
    } else if PastChecks(p') {
      if p.phase.CheckCap? {
        CheckingCap(env, run[k], pid, e, run[k + 1]);
      }
      TrackedExtends(run, k, pid);
    }
  }

  lemma StepKeepsTracked(env: Env, run: seq<State>, k: nat, step: Step, pid: Pid)
    requires k + 1 < |run| && NextBy(env, run[k], step, run[k + 1])
    requires pid in run[k].procs ==> BootUntilRunning(run[k].procs[pid])
    requires Tracked(run, k, pid)
    ensures Tracked(run, k + 1, pid)
  {
    if step.Act? && step.pid == pid {
      ActKeepsTracked(env, run, k, pid, step.e);
    } else if pid in run[k + 1].procs && ActsOnDecision(run[k + 1].procs[pid]) {
      assert run[k + 1].procs[pid] == run[k].procs[pid];
      TrackedExtends(run, k, pid);
    }
  }

  lemma StepAt(env: Env, run: seq<State>, k: nat) returns (step: Step)
    requires IsRun(env, run) && k + 1 < |run|
    ensures NextBy(env, run[k], step, run[k + 1])
  {
    assert Next(env, run[k], run[k + 1]);
    step :| NextBy(env, run[k], step, run[k + 1]);
  }

  lemma {:induction false} RunKeepsTracked(env: Env, run: seq<State>, k: nat, pid: Pid)
    requires IsRun(env, run) && k < |run|
    ensures Tracked(run, k, pid)
  {
    if k > 0 {
      RunKeepsTracked(env, run, k - 1, pid);
      if pid in run[k - 1].procs {
        RunKeepsBoot(env, run, k - 1, pid);
      }
      var step := StepAt(env, run, k - 1);
      StepKeepsTracked(env, run, k - 1, step, pid);
    }
  }

  // A decision starts from a state in which the gateway acts on none.
  lemma DecidingStartsAnew(env: Env, s: State, pid: Pid, e: Effect, s': State)
    requires NextBy(env, s, Act(pid, e), s') && e.Decide?
    ensures !ActsOnDecision(s.procs[pid]) && s'.procs[pid].phase.CheckLog?
  {
  }

  // In every run, with lock files replaced at any time: a settle call comes after
  // states, since the decision it carries out, in which the log's lock name and
  // then the capability's referred to the files the gateway holds.
  lemma SettlesFenced(env: Env, run: seq<State>, k: nat, pid: Pid, e: Effect)
    requires IsRun(env, run) && k + 1 < |run| && NextBy(env, run[k], Act(pid, e), run[k + 1]) && e.Settle?
    ensures Fenced(run, k, pid)
  {
    RunKeepsTracked(env, run, k, pid);
    RunKeepsBoot(env, run, k, pid);
  }

  // And so does every write of a count or of the log by a gateway past startup.
  lemma SavesFenced(env: Env, run: seq<State>, k: nat, pid: Pid, e: Effect)
    requires IsRun(env, run) && k + 1 < |run| && NextBy(env, run[k], Act(pid, e), run[k + 1])
    requires e.Rename? && !e.path.RecordFile? && !run[k].procs[pid].job.Boot?
    ensures Fenced(run, k, pid)
  {
    RunKeepsTracked(env, run, k, pid);
    RunKeepsBoot(env, run, k, pid);
  }
}
