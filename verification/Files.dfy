// The gateway's files. A file has the content that is visible now and the set
// of contents one of which a power loss may leave behind. A rename adds to that
// set; a successful directory sync shrinks it to the visible content.
module Files {
  import opened Wrappers

  type Dir = nat
  type Digest = nat   // SHA-256 of a capability file; it stands for the capability
  type Root = nat     // a log head; computed by a function the machine never inspects
  type TxHash = nat

  // What a look for a transaction's receipt finds.
  datatype Receipt = Unseen | Success | Reverted

  datatype LogPath = LogPath(dir: Dir, name: nat)

  datatype Path =
    | StateCount(dir: Dir, cap: Digest)        // <state-dir>/<digest>.count
    | BesideCount(log: LogPath, cap: Digest)   // <log>.<digest>.count
    | LegacyCount(log: LogPath)                // <log>.count, read and never written
    | LogFile(log: LogPath)
    | RecordFile(log: LogPath)                 // <log>.checkpoint

  function DirOf(p: Path): Dir {
    match p
    case StateCount(d, _) => d
    case BesideCount(l, _) => l.dir
    case LegacyCount(l) => l.dir
    case LogFile(l) => l.dir
    case RecordFile(l) => l.dir
  }

  // One recorded decision: the capability it was made under and its outcome.
  datatype Entry = Entry(cap: Digest, allow: bool, id: nat)

  datatype Content =
    | Absent
    | Garbage
    | Count(cap: Digest, allows: int)
    | Log(entries: seq<Entry>)
    | Record(n: int, root: Root, tx: TxHash)

  datatype File = File(vis: Content, maybe: set<Content>)

  type Files = map<Path, File>

  function FileAt(fs: Files, p: Path): File {
    if p in fs then fs[p] else File(Absent, {Absent})
  }

  function Vis(fs: Files, p: Path): Content {
    FileAt(fs, p).vis
  }

  function Maybe(fs: Files, p: Path): set<Content> {
    FileAt(fs, p).maybe
  }

  ghost predicate Plausible(fs: Files) {
    forall p <- fs :: fs[p].vis in fs[p].maybe
  }

  // Write a temporary file, sync it and rename it over p. An error may have left
  // either content, and either may survive a power loss.
  ghost predicate Renamed(fs: Files, p: Path, c: Content, ok: bool, fs': Files) {
    var f' := FileAt(fs', p);
    && fs' == fs[p := f']
    && f'.maybe == Maybe(fs, p) + {c}
    && (f'.vis == c || (!ok && f'.vis == Vis(fs, p)))
  }

  // Sync directory d. A failed sync promises nothing.
  ghost predicate Synced(fs: Files, d: Dir, ok: bool, fs': Files) {
    if ok then
      fs' == map p | p in fs :: if DirOf(p) == d then File(fs[p].vis, {fs[p].vis}) else fs[p]
    else
      fs' == fs
  }

  // Every file keeps, independently, one of the contents it may have had.
  ghost predicate PowerLost(fs: Files, fs': Files) {
    && fs'.Keys == fs.Keys
    && forall p <- fs :: fs'[p].vis in fs[p].maybe && fs'[p].maybe == {fs'[p].vis}
  }

  // loadCount: the count recorded for this capability, 0 if the file is absent
  // or records another one; None is a refusal.
  function LoadCount(c: Content, cap: Digest): Option<nat> {
    match c
    case Absent => Some(0)
    case Count(d, n) => if n < 0 then None else if d != cap then Some(0) else Some(n)
    case _ => None
  }

  // openLog: a missing log is created empty; anything that is not a log refuses.
  function LoadLog(c: Content): Option<seq<Entry>> {
    match c
    case Absent => Some([])
    case Log(es) => Some(es)
    case _ => None
  }

  function EntriesOf(c: Content): seq<Entry> {
    if c.Log? then c.entries else []
  }

  // loadCheckpointHead: 0 if there is no record; a record the log cannot account
  // for is refused.
  function LoadHead(rootOf: seq<Entry> -> Root, c: Content, log: seq<Entry>): Option<nat> {
    match c
    case Absent => Some(0)
    case Record(n, root, _) =>
      if n < 1 || n > |log| then None
      else if rootOf(log[..n]) != root then None
      else Some(n)
    case _ => None
  }

  function Allows(es: seq<Entry>, cap: Digest): nat {
    if es == [] then 0
    else Allows(es[..|es| - 1], cap) + (if es[|es| - 1].cap == cap && es[|es| - 1].allow then 1 else 0)
  }

  // A file that refuses to load, or one whose count for cap is at least n.
  predicate Covers(c: Content, cap: Digest, n: int) {
    var v := LoadCount(c, cap);
    v.None? || v.value >= n
  }

  // The effects on one other path, in the form the invariants use them.
  lemma RenamedElsewhere(fs: Files, p: Path, c: Content, ok: bool, fs': Files, q: Path)
    requires Renamed(fs, p, c, ok, fs') && q != p
    ensures FileAt(fs', q) == FileAt(fs, q)
  {
  }

  lemma SyncedAt(fs: Files, d: Dir, ok: bool, fs': Files, q: Path)
    requires Synced(fs, d, ok, fs') && Plausible(fs)
    ensures Vis(fs', q) == Vis(fs, q)
    ensures Maybe(fs', q) <= Maybe(fs, q)
    ensures ok && DirOf(q) == d ==> Maybe(fs', q) == {Vis(fs, q)}
  {
  }

  lemma PowerLostAt(fs: Files, fs': Files, q: Path)
    requires PowerLost(fs, fs')
    ensures Maybe(fs', q) <= Maybe(fs, q)
    ensures Maybe(fs', q) == {Vis(fs', q)}
  {
  }

  lemma VisIsPlausible(fs: Files, q: Path)
    requires Plausible(fs)
    ensures Vis(fs, q) in Maybe(fs, q)
  {
  }
}
