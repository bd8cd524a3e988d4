// The gateways as one transition system. LocalStep is the program of a single
// gateway, one externally visible effect at a time; Effected is what the effect
// does to what all gateways share: files, lock names, lock holders, and the
// history of settle calls and of checkpoint heads sent.
module Machine {
  import opened Wrappers
  import opened Files

  type Pid = nat
  type Inode = nat

  datatype Env = Env(maxPayments: Digest -> nat, maxMicro: Digest -> nat, rootOf: seq<Entry> -> Root)

  datatype Mode = Live | DryRun | Evaluate

  datatype Config = Config(log: LogPath, dir: Dir, cap: Digest, mode: Mode, maxFee: nat)

  datatype Lock = LogLock(log: LogPath) | CapLock(dir: Dir, cap: Digest)

  datatype Head = Head(n: nat, root: Root)

  datatype Effect =
    | OpenLock(lock: Lock, ino: Inode)
    | Flock(ino: Inode, ok: bool)
    | CheckName(lock: Lock, named: Option<Inode>)   // stat of the lock's name
    | Read(path: Path, content: Content)
    | Rename(path: Path, content: Content, ok: bool)
    | Sync(dir: Dir, ok: bool)
    | Decide(added: seq<Entry>, allow: bool, micro: nat)
    | Settle(micro: nat)                            // the call into the settler
    | Send(head: Head)                              // a checkpoint handed to the endpoint, acknowledged or not
    | Close(ino: Inode)

  // What the counts are being written for.
  datatype Job = Boot | Idle | Refused | Allowed(micro: nat)

  datatype Phase =
    | Start
    | OpenedLog | FlockedLog | HeldLog
    | OpenedCap | FlockedCap | Locked
    | GotLog | WroteLog | GotState | GotBeside | GotLegacy
    | CheckLog | CheckCap(bad: bool)
    | CountState | SyncState | CountBeside(bad: bool) | SyncBeside(bad: bool)
    | SaveLog | SyncLog | Settling
    | Running | SyncRecord
    | Failing | Dead

  datatype Proc = Proc(
    cfg: Config, phase: Phase, logIno: Inode, capIno: Inode,
    entries: seq<Entry>, used: nat, saved: nat, published: nat, job: Job, heads: set<Head>)

  function NewProc(cfg: Config): Proc {
    Proc(cfg, Start, 0, 0, [], 0, 0, 0, Boot, {})
  }

  // Both counts have been attempted. At startup a failure refuses; in save it
  // abandons the save, and the decision stays in memory only.
  function AfterCounts(p: Proc, bad: bool): Proc {
    if p.job.Boot? then
      if bad then p.(phase := Failing) else p.(phase := Running, job := Idle, saved := |p.entries|)
    else
      if bad then p.(phase := Running, job := Idle) else p.(phase := SaveLog)
  }

  // What Authorize may do: an ALLOW needs room under the capability and an
  // amount within its ceiling, and appends exactly one ALLOW entry; anything
  // else appends no ALLOW.
  predicate DecisionOk(env: Env, p: Proc, added: seq<Entry>, allow: bool, micro: nat) {
    if allow then
      && p.used < env.maxPayments(p.cfg.cap)
      && 1 <= micro <= env.maxMicro(p.cfg.cap)
      && |added| == 1 && added[0].cap == p.cfg.cap && added[0].allow
    else
      |added| <= 1 && forall e <- added :: !e.allow
  }

  function CountContent(p: Proc): Content {
    Count(p.cfg.cap, p.used)
  }

  // lockFile opens or creates the lock file, ...
  function OnOpenLock(p: Proc, l: Lock, i: Inode): Option<Proc> {
    if p.phase.Start? && l == LogLock(p.cfg.log) then Some(p.(phase := OpenedLog, logIno := i))
    else if p.phase.HeldLog? && l == CapLock(p.cfg.dir, p.cfg.cap) then Some(p.(phase := OpenedCap, capIno := i))
    else None
  }

  // ... takes a non-blocking flock on it, ...
  function OnFlock(p: Proc, i: Inode, ok: bool): Option<Proc> {
    if p.phase.OpenedLog? && i == p.logIno then Some(p.(phase := if ok then FlockedLog else Failing))
    else if p.phase.OpenedCap? && i == p.capIno then Some(p.(phase := if ok then FlockedCap else Failing))
    else None
  }

  // ... and refuses if the name no longer refers to it. save checks both names
  // again before it writes anything.
  function OnCheckName(p: Proc, l: Lock, named: Option<Inode>): Option<Proc> {
    if l == LogLock(p.cfg.log) then
      var same := named == Some(p.logIno);
      if p.phase.FlockedLog? then Some(p.(phase := if same then HeldLog else Failing))
      else if p.phase.CheckLog? then Some(p.(phase := CheckCap(!same)))
      else None
    else if l == CapLock(p.cfg.dir, p.cfg.cap) then
      var same := named == Some(p.capIno);
      if p.phase.FlockedCap? then Some(p.(phase := if same then Locked else Failing))
      else if p.phase.CheckCap? then
        if same && !p.phase.bad then Some(p.(phase := CountState)) else Some(p.(phase := Running, job := Idle))
      else None
    else None
  }

  function OnCount(p: Proc, c: Content, next: Phase): Proc {
    match LoadCount(c, p.cfg.cap)
    case Some(v) => p.(phase := next, used := Max(p.used, v))
    case None => p.(phase := Failing)
  }

  // Nothing is read before both locks are held: log, three counts, record.
  function OnRead(env: Env, p: Proc, path: Path, c: Content): Option<Proc> {
    if p.phase.Locked? && path == LogFile(p.cfg.log) then
      match LoadLog(c) {
        case Some(es) => Some(p.(phase := GotLog, entries := es))
        case None => Some(p.(phase := Failing))
      }
    else if p.phase.WroteLog? && path == StateCount(p.cfg.dir, p.cfg.cap) then Some(OnCount(p, c, GotState))
    else if p.phase.GotState? && path == BesideCount(p.cfg.log, p.cfg.cap) then Some(OnCount(p, c, GotBeside))
    else if p.phase.GotBeside? && path == LegacyCount(p.cfg.log) then Some(OnCount(p, c, GotLegacy))
    else if p.phase.GotLegacy? && path == RecordFile(p.cfg.log) then
      match LoadHead(env.rootOf, c, p.entries) {
        case Some(n) => Some(p.(phase := CountState, published := n))
        case None => Some(p.(phase := Failing))
      }
    else None
  }

  function OnRename(p: Proc, path: Path, c: Content, ok: bool): Option<Proc> {
    if path == LogFile(p.cfg.log) && c == Log(p.entries) then
      if p.phase.GotLog? then Some(p.(phase := if ok then WroteLog else Failing))
      else if p.phase.SaveLog? then
        if ok then Some(p.(phase := SyncLog)) else Some(p.(phase := Running, job := Idle))
      else None
    else if p.phase.CountState? && path == StateCount(p.cfg.dir, p.cfg.cap) && c == CountContent(p) then
      Some(p.(phase := if ok then SyncState else CountBeside(true)))
    else if p.phase.CountBeside? && path == BesideCount(p.cfg.log, p.cfg.cap) && c == CountContent(p) then
      if ok then Some(p.(phase := SyncBeside(p.phase.bad))) else Some(AfterCounts(p, true))
    else if p.phase.Running? && path == RecordFile(p.cfg.log)
            && c.Record? && c.n >= 1 && Head(c.n, c.root) in p.heads then
      Some(p.(phase := if ok then SyncRecord else Running))
    else None
  }

  function OnSync(p: Proc, d: Dir, ok: bool): Option<Proc> {
    if p.phase.SyncState? && d == p.cfg.dir then Some(p.(phase := CountBeside(!ok)))
    else if p.phase.SyncBeside? && d == p.cfg.log.dir then Some(AfterCounts(p, p.phase.bad || !ok))
    else if p.phase.SyncLog? && d == p.cfg.log.dir then
      if !ok then Some(p.(phase := Running, job := Idle))
      else if p.job.Allowed? && !p.cfg.mode.Evaluate? then Some(p.(phase := Settling, saved := |p.entries|))
      else Some(p.(phase := Running, job := Idle, saved := |p.entries|))
    else if p.phase.SyncRecord? && d == p.cfg.log.dir then Some(p.(phase := Running))
    else None
  }

  function OnDecide(env: Env, p: Proc, added: seq<Entry>, allow: bool, micro: nat): Option<Proc> {
    if p.phase.Running? && DecisionOk(env, p, added, allow, micro) then
      Some(p.(phase := CheckLog, entries := p.entries + added,
              used := if allow then p.used + 1 else p.used,
              job := if allow then Allowed(micro) else Refused))
    else None
  }

  function OnSettle(p: Proc, micro: nat): Option<Proc> {
    if p.phase.Settling? && p.job == Allowed(micro) then Some(p.(phase := Running, job := Idle)) else None
  }

  // Only a head that is the whole log, and is on disk, is ever sent.
  function OnSend(env: Env, p: Proc, h: Head): Option<Proc> {
    if p.phase.Running? && h.n == |p.entries| == p.saved && h.n >= 1 && h.root == env.rootOf(p.entries) then
      Some(p.(heads := p.heads + {h}))
    else None
  }

  function LocalStep(env: Env, p: Proc, e: Effect): Option<Proc> {
    match e
    case OpenLock(l, i) => OnOpenLock(p, l, i)
    case Flock(i, ok) => OnFlock(p, i, ok)
    case CheckName(l, named) => OnCheckName(p, l, named)
    case Read(path, c) => OnRead(env, p, path, c)
    case Rename(path, c, ok) => OnRename(p, path, c, ok)
    case Sync(d, ok) => OnSync(p, d, ok)
    case Decide(added, allow, micro) => OnDecide(env, p, added, allow, micro)
    case Settle(micro) => OnSettle(p, micro)
    case Send(h) => OnSend(env, p, h)
    case Close(i) => Some(p.(phase := Failing))
  }

  // Everything openLogState reads before it writes, as it would read it.
  ghost predicate Admits(env: Env, fs: Files, cfg: Config) {
    && var es := LoadLog(Vis(fs, LogFile(cfg.log)));
    && es.Some?
    && LoadCount(Vis(fs, StateCount(cfg.dir, cfg.cap)), cfg.cap).Some?
    && LoadCount(Vis(fs, BesideCount(cfg.log, cfg.cap)), cfg.cap).Some?
    && LoadCount(Vis(fs, LegacyCount(cfg.log)), cfg.cap).Some?
    && LoadHead(env.rootOf, Vis(fs, RecordFile(cfg.log)), es.value).Some?
  }

  // ---- what the gateways share ----

  datatype Settled = Settled(cfg: Config, micro: nat)

  datatype State = State(
    files: Files,
    names: map<Lock, Inode>,       // which file each lock name refers to
    held: map<Inode, Pid>,         // who holds the flock on each file
    procs: map<Pid, Proc>,
    settled: seq<Settled>,         // every settle call, in order
    sent: set<(LogPath, Head)>,    // every checkpoint head ever handed to the endpoint
    outside: bool)                 // someone other than a gateway replaced a lock file

  ghost predicate Effected(s: State, pid: Pid, cfg: Config, e: Effect, s': State) {
    match e
    case OpenLock(l, i) =>
      && (if l in s.names then i == s.names[l] else i !in s.names.Values && i !in s.held)
      && s' == s.(names := s.names[l := i], procs := s'.procs)
    case Flock(i, ok) =>
      && (ok ==> i !in s.held)
      && s' == s.(held := if ok then s.held[i := pid] else s.held, procs := s'.procs)
    case CheckName(l, named) =>
      && (named == None || (l in s.names && named == Some(s.names[l])))
      && s' == s.(procs := s'.procs)
    case Read(p, c) => c == Vis(s.files, p) && s' == s.(procs := s'.procs)
    case Rename(p, c, ok) => Renamed(s.files, p, c, ok, s'.files) && s' == s.(files := s'.files, procs := s'.procs)
    case Sync(d, ok) => Synced(s.files, d, ok, s'.files) && s' == s.(files := s'.files, procs := s'.procs)
    case Decide(_, _, _) => s' == s.(procs := s'.procs)
    case Settle(micro) => s' == s.(settled := s.settled + [Settled(cfg, micro)], procs := s'.procs)
    case Send(h) => s' == s.(sent := s.sent + {(cfg.log, h)}, procs := s'.procs)
    case Close(i) =>
      s' == s.(held := if i in s.held && s.held[i] == pid then s.held - {i} else s.held, procs := s'.procs)
  }

  datatype Step =
    | Act(pid: Pid, e: Effect)
    | Spawn(pid: Pid, cfg: Config)
    | Crash(pid: Pid)
    | PowerLoss
    | Outsider(lock: Lock, named: Option<Inode>)

  function Killed(p: Proc): Proc {
    p.(phase := Dead)
  }

  ghost predicate NextBy(env: Env, s: State, step: Step, s': State) {
    match step
    case Act(pid, e) =>
      && pid in s.procs
      && !s.procs[pid].phase.Dead?
      && (s.procs[pid].phase.Failing? ==> e.Close?)
      && var r := LocalStep(env, s.procs[pid], e);
      && r.Some?
      && Effected(s, pid, s.procs[pid].cfg, e, s')
      && s'.procs == s.procs[pid := r.value]
    case Spawn(pid, cfg) =>
      && pid !in s.procs
      && s' == s.(procs := s.procs[pid := NewProc(cfg)])
    case Crash(pid) =>
      && pid in s.procs
      && s' == s.(procs := s.procs[pid := Killed(s.procs[pid])],
                  held := map i | i in s.held && s.held[i] != pid :: s.held[i])
    case PowerLoss =>
      && PowerLost(s.files, s'.files)
      && s'.names.Keys <= s.names.Keys
      && (forall l <- s'.names :: s'.names[l] == s.names[l])
      && s' == s.(files := s'.files, names := s'.names, held := map[],
                  procs := map pid | pid in s.procs :: Killed(s.procs[pid]))
    case Outsider(l, named) =>
      s' == s.(outside := true, names := if named.None? then s.names - {l} else s.names[l := named.value])
  }

  ghost predicate Next(env: Env, s: State, s': State) {
    exists step: Step :: NextBy(env, s, step, s')
  }

  ghost predicate Init(s: State) {
    && s.procs == map[] && s.held == map[] && s.settled == [] && s.sent == {} && !s.outside
    && Plausible(s.files)
  }

  ghost predicate IsRun(env: Env, run: seq<State>) {
    && |run| > 0 && Init(run[0])
    && forall i, j :: 0 <= i < j < |run| && j == i + 1 ==> Next(env, run[i], run[j])
  }
}
