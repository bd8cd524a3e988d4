// When a family of gateway configurations for one capability keeps the bound:
// exactly when any two of them share the state directory or the log.
module Sharing {
  import opened Wrappers
  import opened Files
  import opened Machine
  import opened LockProofs
  import opened CountProofs
  import opened RunTheorems

  predicate FamilyOf(cs: set<Config>, cap: Digest) {
    forall c <- cs :: c.cap == cap && !c.mode.Evaluate?
  }

  predicate AnyTwoShare(cs: set<Config>) {
    forall x <- cs, y <- cs :: x.dir == y.dir || x.log == y.log
  }

  // Every gateway that ever runs has one of these configurations.
  ghost predicate Within(s: State, cs: set<Config>) {
    forall pid <- s.procs :: s.procs[pid].cfg in cs
  }

  ghost predicate RunWithin(env: Env, run: seq<State>, cs: set<Config>) {
    IsRun(env, run) && forall i :: 0 <= i < |run| ==> Within(run[i], cs)
  }

  // No run of the family makes more settle calls than the capability allows.
  ghost predicate NeverExceeds(env: Env, cs: set<Config>, cap: Digest) {
    forall run: seq<State>, i: nat ::
      RunWithin(env, run, cs) && i < |run| && !run[i].outside ==> |run[i].settled| <= env.maxPayments(cap)
  }

  // ---- sharing is enough ----

  // Pairwise sharing means one state directory for all, or one log for all.
  lemma OneAnchorForAll(cs: set<Config>, cap: Digest) returns (a: Anchor)
    requires FamilyOf(cs, cap) && AnyTwoShare(cs)
    ensures a.cap == cap && forall c <- cs :: Matches(c, a)
  {
    if cs == {} {
      return ByDir(0, cap);
    }
    var x :| x in cs;
    if forall c <- cs :: c.dir == x.dir {
      return ByDir(x.dir, cap);
    }
    var y :| y in cs && y.dir != x.dir;
    a := ByLog(x.log, cap);
  }

  ghost predicate SettledWithin(s: State, cs: set<Config>) {
    forall c <- s.settled :: c.cfg in cs
  }

  lemma EffectKeepsSettledWithin(s: State, pid: Pid, cfg: Config, e: Effect, s': State, cs: set<Config>)
    requires Effected(s, pid, cfg, e, s') && SettledWithin(s, cs) && cfg in cs
    ensures SettledWithin(s', cs)
  {
  }

  lemma StepKeepsSettledWithin(env: Env, s: State, s': State, cs: set<Config>)
    requires Next(env, s, s') && SettledWithin(s, cs) && Within(s, cs)
    ensures SettledWithin(s', cs)
  {
    var step: Step :| NextBy(env, s, step, s');
    if step.Act? {
      EffectKeepsSettledWithin(s, step.pid, s.procs[step.pid].cfg, step.e, s', cs);
    }
  }

  lemma {:induction false} RunSettledWithin(env: Env, run: seq<State>, i: nat, cs: set<Config>)
    requires RunWithin(env, run, cs) && i < |run|
    ensures SettledWithin(run[i], cs)
  {
    if i > 0 {
      RunSettledWithin(env, run, i - 1, cs);
      StepKeepsSettledWithin(env, run[i - 1], run[i], cs);
    }
  }

  lemma {:induction false} AllMatch(settled: seq<Settled>, a: Anchor)
    requires forall c <- settled :: Matches(c.cfg, a)
    ensures CountSettled(settled, a) == |settled|
  {
    if settled != [] {
      AllMatch(settled[..|settled| - 1], a);
    }
  }

  lemma SharingSuffices(env: Env, cs: set<Config>, cap: Digest)
    requires FamilyOf(cs, cap) && AnyTwoShare(cs)
    ensures NeverExceeds(env, cs, cap)
  {
    var a := OneAnchorForAll(cs, cap);
    forall run: seq<State>, i: nat | RunWithin(env, run, cs) && i < |run| && !run[i].outside
      ensures |run[i].settled| <= env.maxPayments(cap)
    {
      RunSettledWithin(env, run, i, cs);
      AllMatch(run[i].settled, a);
      SettleCallsBounded(env, run, i, a);
    }
  }

  // ---- and it is necessary: two gateways that share neither ----

  ghost predicate Reach(env: Env, cs: set<Config>, s: State) {
    exists run: seq<State> :: RunWithin(env, run, cs) && run[|run| - 1] == s
  }

  lemma ReachNext(env: Env, cs: set<Config>, s: State, step: Step, s': State)
    requires Reach(env, cs, s) && NextBy(env, s, step, s') && Within(s', cs)
    ensures Reach(env, cs, s')
  {
    var run: seq<State> :| RunWithin(env, run, cs) && run[|run| - 1] == s;
    var longer := run + [s'];
    assert Next(env, s, s');
    forall i, j | 0 <= i < j < |longer| && j == i + 1
      ensures Next(env, longer[i], longer[j])
    {
      if j < |run| {
        assert Next(env, run[i], run[j]);
      }
    }
    assert longer[|longer| - 1] == s';
  }

  // The successful outcome of each effect, for one gateway on a quiet machine.
  function Files'(fs: Files, e: Effect): Files {
    match e
    case Rename(p, c, _) => fs[p := File(c, Maybe(fs, p) + {c})]
    case Sync(d, _) => map p | p in fs :: if DirOf(p) == d then File(fs[p].vis, {fs[p].vis}) else fs[p]
    case _ => fs
  }

  function Performed(env: Env, s: State, pid: Pid, e: Effect): State
    requires pid in s.procs && LocalStep(env, s.procs[pid], e).Some?
  {
    s.(files := Files'(s.files, e),
       names := if e.OpenLock? then s.names[e.lock := e.ino] else s.names,
       held := if e.Flock? then s.held[e.ino := pid] else s.held,
       procs := s.procs[pid := LocalStep(env, s.procs[pid], e).value],
       settled := if e.Settle? then s.settled + [Settled(s.procs[pid].cfg, e.micro)] else s.settled)
  }

  predicate Succeeds(s: State, e: Effect) {
    match e
    case OpenLock(l, i) => l !in s.names && i !in s.names.Values && i !in s.held
    case Flock(i, ok) => ok && i !in s.held
    case CheckName(l, named) => l in s.names && named == Some(s.names[l])
    case Read(p, c) => c == Vis(s.files, p)
    case Rename(_, _, ok) => ok
    case Sync(_, ok) => ok
    case Decide(_, _, _) => true
    case Settle(_) => true
    case _ => false
  }

  predicate Touches(cfg: Config, p: Path) {
    p == StateCount(cfg.dir, cfg.cap) || p == BesideCount(cfg.log, cfg.cap) || p == LogFile(cfg.log)
  }

  // What a gateway's own steps leave of everything that is not its own.
  ghost predicate Spares(s: State, pid: Pid, cfg: Config, s': State) {
    && s'.outside == s.outside && s'.procs.Keys == s.procs.Keys
    && (forall p :: !Touches(cfg, p) ==> Vis(s'.files, p) == Vis(s.files, p))
    && (forall l :: l in s'.names && l != LogLock(cfg.log) && l != CapLock(cfg.dir, cfg.cap) ==> l in s.names)
    && s.names.Keys <= s'.names.Keys && (forall l <- s.names :: s'.names[l] == s.names[l])
  }

  lemma PerformedIsNext(env: Env, s: State, pid: Pid, e: Effect)
    requires pid in s.procs && Acting(s.procs[pid]) && LocalStep(env, s.procs[pid], e).Some? && Succeeds(s, e)
    ensures NextBy(env, s, Act(pid, e), Performed(env, s, pid, e))
  {
    var s' := Performed(env, s, pid, e);
    assert Effected(s, pid, s.procs[pid].cfg, e, s');
  }

  lemma Do(env: Env, cs: set<Config>, s: State, pid: Pid, e: Effect) returns (s': State)
    requires Reach(env, cs, s) && pid in s.procs && Acting(s.procs[pid]) && Within(s, cs)
    requires LocalStep(env, s.procs[pid], e).Some? && Succeeds(s, e)
    requires e.Rename? ==> Touches(s.procs[pid].cfg, e.path)
    requires e.OpenLock? ==>
      var cfg := s.procs[pid].cfg;
      e.lock == LogLock(cfg.log) || e.lock == CapLock(cfg.dir, cfg.cap)
    ensures Reach(env, cs, s') && Within(s', cs) && Spares(s, pid, s.procs[pid].cfg, s')
    ensures s'.procs == s.procs[pid := LocalStep(env, s.procs[pid], e).value]
    ensures s'.names == if e.OpenLock? then s.names[e.lock := e.ino] else s.names
    ensures s'.held == if e.Flock? then s.held[e.ino := pid] else s.held
    ensures s'.settled == if e.Settle? then s.settled + [Settled(s.procs[pid].cfg, e.micro)] else s.settled
    ensures s'.files == Files'(s.files, e)
  {
    s' := Performed(env, s, pid, e);
    PerformedIsNext(env, s, pid, e);
    LocalStepKeepsConfig(env, s.procs[pid], e);
    ReachNext(env, cs, s, Act(pid, e), s');
  }

  // What a gateway does next when nothing goes wrong and nothing of its own has
  // ever been written; i and j are fresh lock files.
  function Driven(p: Proc, i: Inode, j: Inode): Effect {
    var log, capLock := LogLock(p.cfg.log), CapLock(p.cfg.dir, p.cfg.cap);
    match p.phase
    case Start => OpenLock(log, i)
    case OpenedLog => Flock(p.logIno, true)
    case FlockedLog => CheckName(log, Some(p.logIno))
    case HeldLog => OpenLock(capLock, j)
    case OpenedCap => Flock(p.capIno, true)
    case FlockedCap => CheckName(capLock, Some(p.capIno))
    case Locked => Read(LogFile(p.cfg.log), Absent)
    case GotLog => Rename(LogFile(p.cfg.log), Log(p.entries), true)
    case WroteLog => Read(StateCount(p.cfg.dir, p.cfg.cap), Absent)
    case GotState => Read(BesideCount(p.cfg.log, p.cfg.cap), Absent)
    case GotBeside => Read(LegacyCount(p.cfg.log), Absent)
    case GotLegacy => Read(RecordFile(p.cfg.log), Absent)
    case CheckLog => CheckName(log, Some(p.logIno))
    case CheckCap(_) => CheckName(capLock, Some(p.capIno))
    case CountState => Rename(StateCount(p.cfg.dir, p.cfg.cap), CountContent(p), true)
    case SyncState => Sync(p.cfg.dir, true)
    case CountBeside(_) => Rename(BesideCount(p.cfg.log, p.cfg.cap), CountContent(p), true)
    case SyncBeside(_) => Sync(p.cfg.log.dir, true)
    case SaveLog => Rename(LogFile(p.cfg.log), Log(p.entries), true)
    case SyncLog => Sync(p.cfg.log.dir, true)
    case Settling => Settle(if p.job.Allowed? then p.job.micro else 0)
    case _ => Close(0)
  }

  // How many effects are left until the gateway is idle.
  function Left(ph: Phase): nat {
    match ph
    case Start => 21
    case OpenedLog => 20
    case FlockedLog => 19
    case HeldLog => 18
    case OpenedCap => 17
    case FlockedCap => 16
    case Locked => 15
    case GotLog => 14
    case WroteLog => 13
    case GotState => 12
    case GotBeside => 11
    case GotLegacy => 10
    case CheckLog => 10
    case CheckCap(_) => 9
    case CountState => 8
    case SyncState => 7
    case CountBeside(_) => 6
    case SyncBeside(_) => 5
    case SaveLog => 4
    case SyncLog => 3
    case Settling => 2
    case _ => 0
  }

  predicate Stopped(ph: Phase) {
    Left(ph) == 0
  }

  // The gateway's own fields are as an undisturbed one's.
  predicate Tidy(p: Proc) {
    && (Left(p.phase) > 10 || p.phase.GotLegacy? ==> p.job.Boot? && p.used == 0 && p.entries == [])
    && (p.phase.CheckLog? || p.phase.CheckCap? || p.phase.SaveLog? || p.phase.SyncLog? || p.phase.Settling? ==>
          p.job.Allowed?)
    && ((p.phase.CheckCap? || p.phase.CountBeside? || p.phase.SyncBeside?) ==> !p.phase.bad)
    && !p.cfg.mode.Evaluate?
    && (p.phase.CountState? || p.phase.SyncState? || p.phase.CountBeside? || p.phase.SyncBeside? ==>
          p.job.Boot? || p.job.Allowed?)
    && (Stopped(p.phase) ==> p.phase.Running? && p.job.Idle?)
  }

  // The lock names and files are as an undisturbed gateway expects them.
  predicate LocksUndisturbed(names: map<Lock, Inode>, held: map<Inode, Pid>, p: Proc, i: Inode, j: Inode) {
    var log, capLock := LogLock(p.cfg.log), CapLock(p.cfg.dir, p.cfg.cap);
    && i != j
    && (if p.phase.Start? then log !in names && i !in names.Values && i !in held
        else log in names && names[log] == p.logIno)
    && (p.phase.OpenedLog? ==> p.logIno !in held)
    && (if Left(p.phase) > 17 then capLock !in names && j !in names.Values && j !in held
        else capLock in names && names[capLock] == p.capIno)
    && (p.phase.OpenedCap? ==> p.capIno !in held)
  }

  predicate FilesUndisturbed(fs: Files, p: Proc) {
    && (Left(p.phase) >= 15 ==> Vis(fs, LogFile(p.cfg.log)) == Absent)
    && (Left(p.phase) >= 13 ==> Vis(fs, StateCount(p.cfg.dir, p.cfg.cap)) == Absent)
    && (Left(p.phase) >= 12 ==> Vis(fs, BesideCount(p.cfg.log, p.cfg.cap)) == Absent)
    && (Left(p.phase) >= 11 ==> Vis(fs, LegacyCount(p.cfg.log)) == Absent)
    && (Left(p.phase) >= 11 || p.phase.GotLegacy? ==> Vis(fs, RecordFile(p.cfg.log)) == Absent)
  }

  predicate Undisturbed(s: State, p: Proc, i: Inode, j: Inode) {
    LocksUndisturbed(s.names, s.held, p, i, j) && FilesUndisturbed(s.files, p)
  }

  function Advanced(p: Proc, i: Inode, j: Inode): Proc {
    match p.phase
    case Start => p.(phase := OpenedLog, logIno := i)
    case OpenedLog => p.(phase := FlockedLog)
    case FlockedLog => p.(phase := HeldLog)
    case HeldLog => p.(phase := OpenedCap, capIno := j)
    case OpenedCap => p.(phase := FlockedCap)
    case FlockedCap => p.(phase := Locked)
    case Locked => p.(phase := GotLog, entries := [])
    case GotLog => p.(phase := WroteLog)
    case WroteLog => p.(phase := GotState)
    case GotState => p.(phase := GotBeside)
    case GotBeside => p.(phase := GotLegacy)
    case GotLegacy => p.(phase := CountState, published := 0)
    case CheckLog => p.(phase := CheckCap(false))
    case CheckCap(_) => p.(phase := CountState)
    case CountState => p.(phase := SyncState)
    case SyncState => p.(phase := CountBeside(false))
    case CountBeside(_) => p.(phase := SyncBeside(false))
    case SyncBeside(_) =>
      if p.job.Boot? then p.(phase := Running, job := Idle, saved := |p.entries|) else p.(phase := SaveLog)
    case SaveLog => p.(phase := SyncLog)
    case SyncLog => p.(phase := Settling, saved := |p.entries|)
    case _ => p.(phase := Running, job := Idle)
  }

  lemma DrivenAdvances(env: Env, p: Proc, i: Inode, j: Inode)
    requires Tidy(p) && !Stopped(p.phase)
    ensures LocalStep(env, p, Driven(p, i, j)) == Some(Advanced(p, i, j))
  {
  }

  lemma AdvancedStaysTidy(p: Proc, i: Inode, j: Inode)
    requires Tidy(p) && !Stopped(p.phase)
    ensures var p' := Advanced(p, i, j);
      && Tidy(p') && Left(p'.phase) < Left(p.phase) && p'.cfg == p.cfg && p'.used == p.used
      && (p'.job.Allowed? <==> p.job.Allowed? && !p.phase.Settling?)
  {
  }

  lemma DrivenSucceeds(s: State, p: Proc, i: Inode, j: Inode)
    requires Tidy(p) && !Stopped(p.phase) && Undisturbed(s, p, i, j)
    ensures Succeeds(s, Driven(p, i, j))
  {
  }

  lemma DrivenKeepsLocks(names: map<Lock, Inode>, held: map<Inode, Pid>, pid: Pid, p: Proc, i: Inode, j: Inode)
    requires !Stopped(p.phase) && LocksUndisturbed(names, held, p, i, j)
    ensures var e := Driven(p, i, j);
      LocksUndisturbed(if e.OpenLock? then names[e.lock := e.ino] else names,
                       if e.Flock? then held[e.ino := pid] else held, Advanced(p, i, j), i, j)
  {
  }

  function WrittenAt(fs: Files, e: Effect, q: Path): Content {
    if e.Rename? && q == e.path then e.content else Vis(fs, q)
  }

  lemma FilesSeen(fs: Files, e: Effect)
    ensures forall q :: Vis(Files'(fs, e), q) == WrittenAt(fs, e, q)
  {
  }

  // Before the first write, nothing changes; ...
  lemma DrivenKeepsFilesBeforeWriting(fs: Files, p: Proc, i: Inode, j: Inode, fs': Files)
    requires Left(p.phase) >= 15 && FilesUndisturbed(fs, p)
    requires forall q :: Vis(fs', q) == WrittenAt(fs, Driven(p, i, j), q)
    ensures FilesUndisturbed(fs', Advanced(p, i, j))
  {
  }

  // ... while loading, only the log is written, which has been read; ...
  lemma DrivenKeepsFilesWhileLoading(fs: Files, p: Proc, i: Inode, j: Inode, fs': Files)
    requires (10 < Left(p.phase) < 15 || p.phase.GotLegacy?) && FilesUndisturbed(fs, p)
    requires forall q :: Vis(fs', q) == WrittenAt(fs, Driven(p, i, j), q)
    ensures FilesUndisturbed(fs', Advanced(p, i, j))
  {
  }

  // ... and after that no file is expected to be absent.
  lemma DrivenKeepsFiles(fs: Files, p: Proc, i: Inode, j: Inode, fs': Files)
    requires !Stopped(p.phase) && FilesUndisturbed(fs, p)
    requires forall q :: Vis(fs', q) == WrittenAt(fs, Driven(p, i, j), q)
    ensures FilesUndisturbed(fs', Advanced(p, i, j))
  {
    if Left(p.phase) >= 15 {
      DrivenKeepsFilesBeforeWriting(fs, p, i, j, fs');
    } else if Left(p.phase) > 10 || p.phase.GotLegacy? {
      DrivenKeepsFilesWhileLoading(fs, p, i, j, fs');
    }
  }

  lemma DrivenKeepsUndisturbed(s: State, pid: Pid, p: Proc, i: Inode, j: Inode, s': State)
    requires !Stopped(p.phase) && Undisturbed(s, p, i, j)
    requires var e := Driven(p, i, j);
      && s'.names == (if e.OpenLock? then s.names[e.lock := e.ino] else s.names)
      && s'.held == (if e.Flock? then s.held[e.ino := pid] else s.held)
      && s'.files == Files'(s.files, e)
    ensures Undisturbed(s', Advanced(p, i, j), i, j)
  {
    FilesSeen(s.files, Driven(p, i, j));
    DrivenKeepsFiles(s.files, p, i, j, s'.files);
    DrivenKeepsLocks(s.names, s.held, pid, p, i, j);
  }

  lemma DrivenTouchesOwn(p: Proc, i: Inode, j: Inode)
    ensures var e := Driven(p, i, j);
      && (e.Rename? ==> Touches(p.cfg, e.path))
      && (e.OpenLock? ==> e.lock == LogLock(p.cfg.log) || e.lock == CapLock(p.cfg.dir, p.cfg.cap))
      && (e.Settle? <==> p.phase.Settling?)
  {
  }

  ghost predicate Ready(env: Env, cs: set<Config>, s: State, pid: Pid, i: Inode, j: Inode) {
    && Reach(env, cs, s) && Within(s, cs) && pid in s.procs
    && Tidy(s.procs[pid]) && Undisturbed(s, s.procs[pid], i, j)
  }

  // The same gateway goes on, and nothing else has changed.
  ghost predicate Continues(s: State, pid: Pid, s': State) {
    && pid in s.procs && pid in s'.procs
    && s'.procs[pid].cfg == s.procs[pid].cfg && s'.procs[pid].used == s.procs[pid].used
    && Spares(s, pid, s.procs[pid].cfg, s')
  }

  lemma ContinuesIsTransitive(s: State, pid: Pid, s1: State, s2: State)
    requires Continues(s, pid, s1) && Continues(s1, pid, s2)
    ensures Continues(s, pid, s2)
  {
  }

  function Owed(p: Proc): nat {
    if p.job.Allowed? then 1 else 0
  }

  lemma DriveOne(env: Env, cs: set<Config>, s: State, pid: Pid, i: Inode, j: Inode) returns (s': State)
    requires Ready(env, cs, s, pid, i, j) && !Stopped(s.procs[pid].phase)
    ensures Ready(env, cs, s', pid, i, j) && Continues(s, pid, s')
    ensures Left(s'.procs[pid].phase) < Left(s.procs[pid].phase)
    ensures |s'.settled| + Owed(s'.procs[pid]) == |s.settled| + Owed(s.procs[pid])
  {
    var p := s.procs[pid];
    DrivenAdvances(env, p, i, j);
    DrivenSucceeds(s, p, i, j);
    DrivenTouchesOwn(p, i, j);
    AdvancedStaysTidy(p, i, j);
    s' := Do(env, cs, s, pid, Driven(p, i, j));
    DrivenKeepsUndisturbed(s, pid, p, i, j, s');
  }

  // Drive one gateway until it is idle: an ALLOW it was deciding is settled.
  lemma {:induction false} Drive(env: Env, cs: set<Config>, s: State, pid: Pid, i: Inode, j: Inode) returns (s': State)
    requires Ready(env, cs, s, pid, i, j)
    ensures Ready(env, cs, s', pid, i, j) && Continues(s, pid, s')
    ensures Stopped(s'.procs[pid].phase)
    ensures |s'.settled| == |s.settled| + Owed(s.procs[pid])
    decreases Left(s.procs[pid].phase)
  {
    if Stopped(s.procs[pid].phase) {
      return s;
    }
    var s1 := DriveOne(env, cs, s, pid, i, j);
    s' := Drive(env, cs, s1, pid, i, j);
    ContinuesIsTransitive(s, pid, s1, s');
  }

  // One payment by an idle gateway, from the decision to the settle call.
  lemma Pay(env: Env, cs: set<Config>, s: State, pid: Pid, i: Inode, j: Inode) returns (s': State)
    requires Ready(env, cs, s, pid, i, j) && Stopped(s.procs[pid].phase)
    requires s.procs[pid].used < env.maxPayments(s.procs[pid].cfg.cap) && 1 <= env.maxMicro(s.procs[pid].cfg.cap)
    ensures Ready(env, cs, s', pid, i, j) && Stopped(s'.procs[pid].phase)
    ensures s'.procs[pid].cfg == s.procs[pid].cfg && s'.procs[pid].used == s.procs[pid].used + 1
    ensures Spares(s, pid, s.procs[pid].cfg, s')
    ensures |s'.settled| == |s.settled| + 1
  {
    var p := s.procs[pid];
    var added := [Entry(p.cfg.cap, true, 0)];
    var p1 := p.(phase := CheckLog, entries := p.entries + added, used := p.used + 1, job := Allowed(1));
    assert DecisionOk(env, p, added, true, 1);
    assert LocalStep(env, p, Decide(added, true, 1)) == Some(p1);
    var s1 := Do(env, cs, s, pid, Decide(added, true, 1));
    assert s1.procs[pid] == p1;
    assert Ready(env, cs, s1, pid, i, j);
    s' := Drive(env, cs, s1, pid, i, j);
  }

  lemma SparesIsTransitive(s: State, pid: Pid, cfg: Config, s1: State, s2: State)
    requires Spares(s, pid, cfg, s1) && Spares(s1, pid, cfg, s2)
    ensures Spares(s, pid, cfg, s2)
  {
  }

  // An idle gateway pays until its capability is used up.
  lemma {:induction false} PayAll(env: Env, cs: set<Config>, s: State, pid: Pid, i: Inode, j: Inode) returns (s': State)
    requires Ready(env, cs, s, pid, i, j) && Stopped(s.procs[pid].phase)
    requires s.procs[pid].used <= env.maxPayments(s.procs[pid].cfg.cap) && 1 <= env.maxMicro(s.procs[pid].cfg.cap)
    ensures Reach(env, cs, s') && Within(s', cs) && Spares(s, pid, s.procs[pid].cfg, s')
    ensures |s'.settled| == |s.settled| + env.maxPayments(s.procs[pid].cfg.cap) - s.procs[pid].used
    decreases env.maxPayments(s.procs[pid].cfg.cap) - s.procs[pid].used
  {
    if s.procs[pid].used == env.maxPayments(s.procs[pid].cfg.cap) {
      return s;
    }
    var s1 := Pay(env, cs, s, pid, i, j);
    s' := PayAll(env, cs, s1, pid, i, j);
    SparesIsTransitive(s, pid, s.procs[pid].cfg, s1, s');
  }

  // Nothing of cfg's own exists yet.
  predicate Fresh(s: State, cfg: Config) {
    && LogLock(cfg.log) !in s.names && CapLock(cfg.dir, cfg.cap) !in s.names
    && forall p <- {LogFile(cfg.log), StateCount(cfg.dir, cfg.cap), BesideCount(cfg.log, cfg.cap),
                    LegacyCount(cfg.log), RecordFile(cfg.log)} ::
         Vis(s.files, p) == Absent
  }

  lemma {:induction false} Unused(taken: set<Inode>) returns (i: Inode)
    ensures forall k <- taken :: k < i
  {
    if taken == {} {
      return 0;
    }
    var k :| k in taken;
    var m := Unused(taken - {k});
    i := Max(m, k + 1);
    forall k' <- taken ensures k' < i {
      assert k' == k || k' in taken - {k};
    }
  }

  // Where nothing of its own exists, a gateway that has just started is ready.
  lemma Spawned(env: Env, cs: set<Config>, s: State, pid: Pid, cfg: Config) returns (s': State, i: Inode, j: Inode)
    requires Reach(env, cs, s) && Within(s, cs) && pid !in s.procs
    requires cfg in cs && !cfg.mode.Evaluate? && Fresh(s, cfg)
    ensures s' == s.(procs := s.procs[pid := NewProc(cfg)])
    ensures Ready(env, cs, s', pid, i, j)
  {
    i := Unused(s.names.Values + s.held.Keys);
    j := i + 1;
    s' := s.(procs := s.procs[pid := NewProc(cfg)]);
    assert NextBy(env, s, Spawn(pid, cfg), s');
    ReachNext(env, cs, s, Spawn(pid, cfg), s');
  }

  // It then starts up.
  lemma StartUp(env: Env, cs: set<Config>, s: State, pid: Pid, cfg: Config) returns (s': State, i: Inode, j: Inode)
    requires Reach(env, cs, s) && Within(s, cs) && pid !in s.procs
    requires cfg in cs && !cfg.mode.Evaluate? && Fresh(s, cfg)
    ensures Ready(env, cs, s', pid, i, j) && Stopped(s'.procs[pid].phase)
    ensures s'.procs[pid].cfg == cfg && s'.procs[pid].used == 0
    ensures |s'.settled| == |s.settled| && s'.procs.Keys == s.procs.Keys + {pid}
    ensures Spares(s.(procs := s'.procs), pid, cfg, s')
  {
    var s1;
    s1, i, j := Spawned(env, cs, s, pid, cfg);
    s' := Drive(env, cs, s1, pid, i, j);
  }

  lemma NothingYet(env: Env, cs: set<Config>) returns (s: State)
    ensures Reach(env, cs, s) && s == State(map[], map[], map[], map[], [], {}, false)
  {
    s := State(map[], map[], map[], map[], [], {}, false);
    var run := [s];
    assert RunWithin(env, run, cs) && run[|run| - 1] == s;
  }

  lemma SparesKeepsFresh(s: State, pid: Pid, cfg: Config, s': State, other: Config)
    requires Spares(s, pid, cfg, s') && Fresh(s, other)
    requires cfg.dir != other.dir && cfg.log != other.log
    ensures Fresh(s', other)
  {
  }

  // One gateway spends the whole capability; ...
  lemma SpendAll(env: Env, cs: set<Config>, x: Config, y: Config) returns (s: State)
    requires x in cs && !x.mode.Evaluate? && env.maxMicro(x.cap) >= 1
    requires x.dir != y.dir && x.log != y.log
    ensures Reach(env, cs, s) && Within(s, cs) && !s.outside && s.procs.Keys == {0}
    ensures Fresh(s, y) && |s.settled| == env.maxPayments(x.cap)
  {
    var s0 := NothingYet(env, cs);
    var s1, i, j := StartUp(env, cs, s0, 0, x);
    s := PayAll(env, cs, s1, 0, i, j);
    SparesKeepsFresh(s0.(procs := s1.procs), 0, x, s1, y);
    SparesKeepsFresh(s1, 0, x, s, y);
  }

  // ... and one that shares neither the state directory nor the log then finds
  // no count, and pays once more.
  lemma NotSharingExceeds(env: Env, cs: set<Config>, cap: Digest, x: Config, y: Config)
    requires FamilyOf(cs, cap) && env.maxPayments(cap) >= 1 && env.maxMicro(cap) >= 1
    requires x in cs && y in cs && x.dir != y.dir && x.log != y.log
    ensures !NeverExceeds(env, cs, cap)
  {
    var spent := SpendAll(env, cs, x, y);
    var s, i, j := StartUp(env, cs, spent, 1, y);
    s := Pay(env, cs, s, 1, i, j);
    var run: seq<State> :| RunWithin(env, run, cs) && run[|run| - 1] == s;
    assert RunWithin(env, run, cs) && |run| - 1 < |run| && !run[|run| - 1].outside;
  }

  // The configurations that keep the bound, exactly.
  lemma BoundIffAnyTwoShare(env: Env, cs: set<Config>, cap: Digest)
    requires FamilyOf(cs, cap) && env.maxPayments(cap) >= 1 && env.maxMicro(cap) >= 1
    ensures NeverExceeds(env, cs, cap) <==> AnyTwoShare(cs)
  {
    if AnyTwoShare(cs) {
      SharingSuffices(env, cs, cap);
    } else {
      var x, y :| x in cs && y in cs && x.dir != y.dir && x.log != y.log;
      NotSharingExceeds(env, cs, cap, x, y);
    }
  }
}
