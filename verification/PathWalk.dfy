// The path walk as it runs: one loop over a worklist, against a file system that
// may change between any two lookups.
module PathWalk {
  import opened Wrappers
  import opened PathRules
  import opened PathRef

  datatype Lookup = Stat(path: Path, info: Option<Info>) | Link(path: Path, target: Option<string>)

  class FileSystem {
    ghost var trace: seq<Lookup>

    method Lstat(p: Path) returns (fi: Option<Info>)
      modifies this
      ensures trace == old(trace) + [Stat(p, fi)]
    {
      fi := Any();
      trace := trace + [Stat(p, fi)];
    }

    method Readlink(p: Path) returns (target: Option<string>)
      modifies this
      ensures trace == old(trace) + [Link(p, target)]
    {
      target := Any();
      trace := trace + [Link(p, target)];
    }
  }

  predicate Answers(l: Lookup, fs: Fs) {
    match l
    case Stat(p, fi) => fi == fs.stat(p)
    case Link(p, t) => t == fs.link(p)
  }

  // Every lookup answered as fs would have.
  predicate Agrees(trace: seq<Lookup>, fs: Fs) {
    forall l <- trace :: Answers(l, fs)
  }

  lemma AgreesExtends(trace: seq<Lookup>, l: Lookup, fs: Fs)
    ensures Agrees(trace + [l], fs) <==> Agrees(trace, fs) && Answers(l, fs)
  {
    assert l in trace + [l];
    forall k <- trace
      ensures k in trace + [l]
    {
    }
  }

  // p was looked up, and what the lookup found passes the rule.
  ghost predicate Passed(trace: seq<Lookup>, me: nat, p: Path, leaf: bool) {
    exists fi :: Stat(p, Some(fi)) in trace && LastRule(me, leaf, fi)
  }

  // Every directory above p was looked up under its own path and passed.
  ghost predicate AllAbovePassed(trace: seq<Lookup>, me: nat, p: Path) {
    forall k: nat :: k < |p| ==> Passed(trace, me, p[..k], false)
  }

  // A link that was read is root's, in a directory that had passed before.
  ghost predicate FollowedSafely(trace: seq<Lookup>, me: nat, i: nat)
    requires i < |trace|
  {
    trace[i].Link? ==>
      && trace[i].path != []
      && (exists fi :: Stat(trace[i].path, Some(fi)) in trace[..i] && fi.kind.Symlink? && fi.uid == Some(0))
      && Passed(trace[..i], me, trace[i].path[..|trace[i].path| - 1], false)
  }

  ghost predicate LinksSafe(trace: seq<Lookup>, me: nat) {
    forall i: nat :: i < |trace| ==> FollowedSafely(trace, me, i)
  }

  lemma PassedExtends(trace: seq<Lookup>, l: Lookup, me: nat, p: Path, leaf: bool)
    requires Passed(trace, me, p, leaf)
    ensures Passed(trace + [l], me, p, leaf)
  {
    var fi :| Stat(p, Some(fi)) in trace && LastRule(me, leaf, fi);
    assert Stat(p, Some(fi)) in trace + [l];
  }

  lemma AbovePassedExtends(trace: seq<Lookup>, l: Lookup, me: nat, p: Path)
    requires AllAbovePassed(trace, me, p)
    ensures AllAbovePassed(trace + [l], me, p)
  {
    forall k: nat | k < |p|
      ensures Passed(trace + [l], me, p[..k], false)
    {
      PassedExtends(trace, l, me, p[..k], false);
    }
  }

  // One more directory has passed.
  lemma Descend(trace: seq<Lookup>, me: nat, cur: Path, name: Name)
    requires AllAbovePassed(trace, me, cur) && Passed(trace, me, cur, false)
    ensures AllAbovePassed(trace, me, cur + [name])
  {
    forall k: nat | k < |cur| + 1
      ensures Passed(trace, me, (cur + [name])[..k], false)
    {
      assert (cur + [name])[..k] == if k < |cur| then cur[..k] else cur;
    }
  }

  lemma LinksSafeExtends(trace: seq<Lookup>, l: Lookup, me: nat)
    requires LinksSafe(trace, me)
    requires l.Link? ==> FollowedSafely(trace + [l], me, |trace|)
    ensures LinksSafe(trace + [l], me)
  {
    forall i: nat | i < |trace| + 1
      ensures FollowedSafely(trace + [l], me, i)
    {
      if i < |trace| {
        assert FollowedSafely(trace, me, i);
        assert (trace + [l])[..i] == trace[..i];
      }
    }
  }

  // Where the walk stands: every directory it stands below has passed, and every
  // link it took was safe.
  ghost predicate Safe(trace: seq<Lookup>, me: nat, cur: Path) {
    && AllAbovePassed(trace, me, cur) && Passed(trace, me, cur, false)
    && Passed(trace, me, [], false) && LinksSafe(trace, me)
  }

  lemma StatKeepsSafe(trace: seq<Lookup>, me: nat, cur: Path, p: Path, fi: Option<Info>, fs: Fs)
    requires Safe(trace, me, cur)
    ensures Agrees(trace + [Stat(p, fi)], fs) <==> Agrees(trace, fs) && fi == fs.stat(p)
    ensures Safe(trace + [Stat(p, fi)], me, cur)
    ensures Stat(p, fi) in trace + [Stat(p, fi)]
    ensures forall l <- trace :: l in trace + [Stat(p, fi)]
  {
    AgreesExtends(trace, Stat(p, fi), fs);
    AbovePassedExtends(trace, Stat(p, fi), me, cur);
    PassedExtends(trace, Stat(p, fi), me, cur, false);
    PassedExtends(trace, Stat(p, fi), me, [], false);
    LinksSafeExtends(trace, Stat(p, fi), me);
  }

  lemma LinkKeepsSafe(trace: seq<Lookup>, me: nat, cur: Path, name: Name, fi: Info, target: Option<string>, fs: Fs)
    requires Safe(trace, me, cur) && Stat(cur + [name], Some(fi)) in trace && fi.kind.Symlink? && fi.uid == Some(0)
    ensures Safe(trace + [Link(cur + [name], target)], me, [])
    ensures forall l <- trace :: l in trace + [Link(cur + [name], target)]
    ensures Agrees(trace + [Link(cur + [name], target)], fs) <==> Agrees(trace, fs) && target == fs.link(cur + [name])
  {
    var l := Link(cur + [name], target);
    AgreesExtends(trace, l, fs);
    assert (trace + [l])[..|trace|] == trace && (cur + [name])[..|cur|] == cur;
    LinksSafeExtends(trace, l, me);
    PassedExtends(trace, l, me, [], false);
  }

  // The answer was earned: every directory above it passed on its own lookup, and
  // so did it, under its own rule.
  ghost predicate Earned(trace: seq<Lookup>, me: nat, p: Path, leaf: bool) {
    AllAbovePassed(trace, me, p) && Passed(trace, me, p, leaf) && Proper(p)
  }

  lemma EnterKeepsSafe(trace: seq<Lookup>, me: nat, cur: Path, name: Name, fi: Info, leaf: bool)
    requires Safe(trace, me, cur) && Stat(cur + [name], Some(fi)) in trace && Proper(cur) && ProperName(name)
    ensures AboveRule(me, fi) ==> Safe(trace, me, cur + [name])
    ensures LastRule(me, leaf, fi) ==> Earned(trace, me, cur + [name], leaf)
    ensures Proper(cur + [name])
  {
    Descend(trace, me, cur, name);
  }

  // One turn of the loop: look the next name up, and enter, follow or refuse it.
  method Visit(os: FileSystem, me: nat, cur: Path, name: Name, leaf: bool, links: nat, ghost fs: Fs)
    returns (look: Look)
    requires Safe(os.trace, me, cur) && Proper(cur) && ProperName(name) && links <= MAX_PATH_LINKS
    modifies os
    ensures forall l <- old(os.trace) :: l in os.trace
    ensures Agrees(os.trace, fs) ==> Agrees(old(os.trace), fs)
    ensures Agrees(os.trace, fs) ==> look == LookUp(fs, me, cur, name, leaf, MAX_PATH_LINKS - links)
    ensures LinksSafe(os.trace, me)
    ensures look.Enter? ==> Earned(os.trace, me, cur + [name], leaf) && (!leaf ==> Safe(os.trace, me, cur + [name]))
    ensures look.Follow? ==> Safe(os.trace, me, []) && Proper(look.to) && links < MAX_PATH_LINKS
  {
    var next := cur + [name];
    ghost var before := os.trace;
    var fi := os.Lstat(next);
    StatKeepsSafe(before, me, cur, next, fi, fs);
    if fi.None? {
      return Refuse(Unavailable);
    }
    if fi.value.kind.Symlink? {
      if fi.value.uid != Some(0) {
        return Refuse(Violation);
      }
      if links + 1 > MAX_PATH_LINKS {
        return Refuse(Violation);
      }
      before := os.trace;
      var target := os.Readlink(next);
      LinkKeepsSafe(before, me, cur, name, fi.value, target, fs);
      if target.None? {
        return Refuse(Unavailable);
      }
      SplitHasNoSlash(target.value);
      CleanIsProper(if IsAbs(target.value) then [] else cur, Split(target.value));
      return Follow(Target(cur, target.value));
    }
    EnterKeepsSafe(os.trace, me, cur, name, fi.value, leaf);
    if !fi.value.kind.Directory? || !LastRule(me, leaf, fi.value) {
      return Refuse(Violation);
    }
    return Enter;
  }

  // The loop, from the root on: fi is what the root's lookup found.
  method WalkPending(os: FileSystem, me: nat, abs: Path, leaf: bool, fi: Info, ghost fs: Fs)
    returns (r: Result<Path, Refusal>)
    requires Proper(abs) && abs != [] && Safe(os.trace, me, []) && Stat([], Some(fi)) in os.trace
    modifies os
    ensures forall l <- old(os.trace) :: l in os.trace
    ensures Agrees(os.trace, fs) ==>
      && Agrees(old(os.trace), fs)
      && var ref := Walk(fs, me, [], abs, leaf, MAX_PATH_LINKS);
         if ref.Ok? then r == Ok(ref.value.0) else r == Err(ref.error)
    ensures r.Ok? ==> Earned(os.trace, me, r.value, leaf)
    ensures LinksSafe(os.trace, me)
  {
    var pending := abs;
    var cur: Path, links := [], 0;
    while pending != []
      invariant links <= MAX_PATH_LINKS && Proper(cur) && Proper(pending)
      invariant pending == [] ==> cur == []   // so what is left to judge is the root, and fi is its lookup
      invariant Stat([], Some(fi)) in os.trace && Safe(os.trace, me, cur)
      invariant forall l <- old(os.trace) :: l in os.trace
      invariant Agrees(os.trace, fs) ==> Agrees(old(os.trace), fs)
      invariant Agrees(os.trace, fs) ==>
        Walk(fs, me, cur, pending, leaf, MAX_PATH_LINKS - links) == Walk(fs, me, [], abs, leaf, MAX_PATH_LINKS)
      decreases MAX_PATH_LINKS - links, |pending|
    {
      var name := pending[0];
      pending := pending[1..];
      var look := Visit(os, me, cur, name, leaf && pending == [], links, fs);
      match look
      case Refuse(why) => return Err(why);
      case Follow(to) =>
        links := links + 1;
        pending := to + pending;
        cur := [];
      case Enter =>
        cur := cur + [name];
        if pending == [] {
          return Ok(cur);
        }
    }
    return if LastRule(me, leaf, fi) then Ok(cur) else Err(Violation);
  }

  lemma WalkEqualsResolve(fs: Fs, me: nat, abs: Path, leaf: bool)
    ensures Root(fs, me, false).None? ==>
      Walk(fs, me, [], abs, leaf, MAX_PATH_LINKS) == Resolve(fs, me, abs, leaf, MAX_PATH_LINKS)
  {
    if Root(fs, me, false).None? {
      WalkIsResolve(fs, me, abs, leaf, MAX_PATH_LINKS);
    }
  }

  lemma Refused(fs: Fs, me: nat, abs: Path, leaf: bool)
    ensures abs != [] && Root(fs, me, false).Some? ==>
      Resolve(fs, me, abs, leaf, MAX_PATH_LINKS) == Err(Root(fs, me, false).value)
  {
    if abs != [] && Root(fs, me, false).Some? {
      BadRootRefuses(fs, me, abs, leaf, MAX_PATH_LINKS);
    }
  }

  // resolvePath. fs is any one file system: if every lookup agreed with it, the
  // answer is the reference's. Against a file system that changed under the
  // walk, the answer was still earned lookup by lookup.
  method ResolvePath(os: FileSystem, me: nat, abs: Path, leaf: bool, ghost fs: Fs) returns (r: Result<Path, Refusal>)
    requires os.trace == [] && Proper(abs)
    modifies os
    ensures Agrees(os.trace, fs) ==>
      var ref := Resolve(fs, me, abs, leaf, MAX_PATH_LINKS);
      if ref.Ok? then r == Ok(ref.value.0) else r == Err(ref.error)
    ensures r.Ok? ==> Earned(os.trace, me, r.value, leaf)
    ensures LinksSafe(os.trace, me)
  {
    var fi := os.Lstat([]);
    AgreesExtends([], Stat([], fi), fs);
    assert os.trace == [] + [Stat([], fi)] && Stat([], fi) in os.trace;
    if fi.None? {
      Refused(fs, me, abs, leaf);
      return Err(Unavailable);
    }
    var pending := abs;
    if pending == [] {
      return if LastRule(me, leaf, fi.value) then Ok([]) else Err(Violation);
    }
    if !AboveRule(me, fi.value) {
      Refused(fs, me, abs, leaf);
      return Err(Violation);
    }
    WalkEqualsResolve(fs, me, abs, leaf);
    r := WalkPending(os, me, abs, leaf, fi.value, fs);
  }
}
