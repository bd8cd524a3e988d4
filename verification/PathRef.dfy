// Resolution of a private path on a file system that does not change: a
// compositional reference (resolve the parent, then the last name) and the
// worklist the gateway runs, proved equal.
module PathRef {
  import opened Wrappers
  import opened PathRules

  datatype Fs = Fs(stat: Path -> Option<Info>, link: Path -> Option<string>)

  // The resolved path and the links still allowed.
  type Answer = Result<(Path, nat), Refusal>

  function Root(fs: Fs, me: nat, leaf: bool): Option<Refusal> {
    var fi := fs.stat([]);
    if fi.None? then Some(Unavailable)
    else if LastRule(me, leaf, fi.value) then None
    else Some(Violation)
  }

  // One name in a resolved directory: a directory that passes, a link to follow,
  // or a refusal.
  datatype Look = Enter | Follow(to: Path) | Refuse(why: Refusal)

  function LookUp(fs: Fs, me: nat, dir: Path, name: Name, leaf: bool, budget: nat): Look {
    var next := dir + [name];
    var fi := fs.stat(next);
    if fi.None? then Refuse(Unavailable)
    else if fi.value.kind.Symlink? then
      if fi.value.uid != Some(0) || budget == 0 then Refuse(Violation)
      else if fs.link(next).None? then Refuse(Unavailable)
      else Follow(Target(dir, fs.link(next).value))
    else if LastRule(me, leaf, fi.value) then Enter
    else Refuse(Violation)
  }

  // The reference: the parent resolves under the rule for a directory above, and
  // a link stands for the resolution of its target.
  function Resolve(fs: Fs, me: nat, path: Path, leaf: bool, budget: nat): (r: Answer)
    ensures r.Ok? ==> r.value.1 <= budget
    decreases budget, |path|
  {
    if path == [] then
      var e := Root(fs, me, leaf);
      if e.Some? then Err(e.value) else Ok(([], budget))
    else
      var parent := Resolve(fs, me, path[..|path| - 1], false, budget);
      if parent.Err? then parent
      else
        var (dir, left) := parent.value;
        match LookUp(fs, me, dir, path[|path| - 1], leaf, left)
        case Enter => Ok((dir + [path[|path| - 1]], left))
        case Follow(to) => Resolve(fs, me, to, leaf, left - 1)
        case Refuse(why) => Err(why)
  }

  // The worklist, one component at a time from the left; a followed link
  // restarts at the root with its target in front of what was pending. Once
  // nothing is pending, what is left to judge is the root.
  function Walk(fs: Fs, me: nat, cur: Path, pending: Path, leaf: bool, budget: nat): Answer
    decreases budget, |pending|
  {
    if pending == [] then
      var e := Root(fs, me, leaf);
      if e.Some? then Err(e.value) else Ok((cur, budget))
    else
      var rest := pending[1..];
      match LookUp(fs, me, cur, pending[0], leaf && rest == [], budget)
      case Enter =>
        var next := cur + [pending[0]];
        if rest == [] then Ok((next, budget)) else Walk(fs, me, next, rest, leaf, budget)
      case Follow(to) => Walk(fs, me, [], to + rest, leaf, budget - 1)
      case Refuse(why) => Err(why)
  }

  // Walking a concatenation is walking its front as a directory above, then the rest.
  lemma {:induction false} WalkSplits(fs: Fs, me: nat, cur: Path, front: Path, back: Path, leaf: bool, budget: nat)
    requires Root(fs, me, false).None? && back != [] && (front == [] ==> cur == [])
    ensures Walk(fs, me, cur, front + back, leaf, budget) ==
      var r := Walk(fs, me, cur, front, false, budget);
      if r.Err? then r else Walk(fs, me, r.value.0, back, leaf, r.value.1)
    decreases budget, |front|
  {
    if front == [] {
      assert front + back == back;
    } else {
      var all := front + back;
      assert all[0] == front[0] && all[1..] == front[1..] + back;
      match LookUp(fs, me, cur, front[0], false, budget)
      case Enter =>
        if front[1..] != [] {
          WalkSplits(fs, me, cur + [front[0]], front[1..], back, leaf, budget);
        } else {
          assert front[1..] + back == back;
        }
      case Follow(to) =>
        assert to + front[1..] + back == to + (front[1..] + back);
        WalkSplits(fs, me, [], to + front[1..], back, leaf, budget - 1);
      case Refuse(why) =>
    }
  }

  lemma {:induction false} WalkIsResolve(fs: Fs, me: nat, path: Path, leaf: bool, budget: nat)
    requires Root(fs, me, false).None?
    ensures Walk(fs, me, [], path, leaf, budget) == Resolve(fs, me, path, leaf, budget)
    decreases budget, |path|
  {
    if path != [] {
      var front, last := path[..|path| - 1], path[|path| - 1];
      assert path == front + [last];
      WalkSplits(fs, me, [], front, [last], leaf, budget);
      WalkIsResolve(fs, me, front, false, budget);
      var parent := Resolve(fs, me, front, false, budget);
      if parent.Ok? {
        var (dir, left) := parent.value;
        var look := LookUp(fs, me, dir, last, leaf, left);
        if look.Follow? {
          assert look.to + [] == look.to;
          WalkIsResolve(fs, me, look.to, leaf, left - 1);
        }
      }
    }
  }

  // A root that refuses refuses every path below it.
  lemma {:induction false} BadRootRefuses(fs: Fs, me: nat, path: Path, leaf: bool, budget: nat)
    requires path != [] && Root(fs, me, false).Some?
    ensures Resolve(fs, me, path, leaf, budget) == Err(Root(fs, me, false).value)
  {
    if |path| > 1 {
      BadRootRefuses(fs, me, path[..|path| - 1], false, budget);
    }
  }

  // ---- what a resolved path is ----

  // Every directory above the last passes the rule for one above, the last
  // passes its own rule, and none of them is a link.
  predicate Real(fs: Fs, me: nat, p: Path, leaf: bool) {
    && (p != [] ==> Real(fs, me, p[..|p| - 1], false))
    && fs.stat(p).Some? && LastRule(me, leaf, fs.stat(p).value)
  }

  lemma {:induction false} ResolvedIsReal(fs: Fs, me: nat, path: Path, leaf: bool, budget: nat)
    requires Resolve(fs, me, path, leaf, budget).Ok?
    ensures Real(fs, me, Resolve(fs, me, path, leaf, budget).value.0, leaf)
    decreases budget, |path|
  {
    if path != [] {
      var front, last := path[..|path| - 1], path[|path| - 1];
      ResolvedIsReal(fs, me, front, false, budget);
      var (dir, left) := Resolve(fs, me, front, false, budget).value;
      var look := LookUp(fs, me, dir, last, leaf, left);
      if look.Follow? {
        ResolvedIsReal(fs, me, look.to, leaf, left - 1);
      } else {
        assert (dir + [last])[..|dir|] == dir;
      }
    }
  }

  lemma {:induction false} RealResolvesToItself(fs: Fs, me: nat, p: Path, leaf: bool, budget: nat)
    requires Real(fs, me, p, leaf)
    ensures Resolve(fs, me, p, leaf, budget) == Ok((p, budget))
  {
    if p != [] {
      RealResolvesToItself(fs, me, p[..|p| - 1], false, budget);
      assert p == p[..|p| - 1] + [p[|p| - 1]];
    }
  }

  // Resolving a returned path returns it, and follows no link.
  lemma ResolveIsIdempotent(fs: Fs, me: nat, path: Path, leaf: bool, budget: nat, again: nat)
    requires Resolve(fs, me, path, leaf, budget).Ok?
    ensures var p := Resolve(fs, me, path, leaf, budget).value.0;
      Resolve(fs, me, p, leaf, again) == Ok((p, again))
  {
    ResolvedIsReal(fs, me, path, leaf, budget);
    RealResolvesToItself(fs, me, Resolve(fs, me, path, leaf, budget).value.0, leaf, again);
  }

  // A path that is private enough to hold files is private enough to hold a
  // directory, and resolves to the same place.
  lemma {:induction false} PrivateIsParent(fs: Fs, me: nat, path: Path, budget: nat)
    requires Resolve(fs, me, path, true, budget).Ok?
    ensures Resolve(fs, me, path, false, budget) == Resolve(fs, me, path, true, budget)
    decreases budget, |path|
  {
    if path != [] {
      var (dir, left) := Resolve(fs, me, path[..|path| - 1], false, budget).value;
      var look := LookUp(fs, me, dir, path[|path| - 1], true, left);
      if look.Follow? {
        PrivateIsParent(fs, me, look.to, left - 1);
      }
    }
  }

  // Every prefix of a real path is a directory, so no prefix is a link.
  lemma {:induction false} RealHasNoLink(fs: Fs, me: nat, p: Path, leaf: bool, k: nat)
    requires Real(fs, me, p, leaf) && k <= |p|
    ensures fs.stat(p[..k]).Some? && fs.stat(p[..k]).value.kind.Directory?
    ensures k < |p| ==> AboveRule(me, fs.stat(p[..k]).value)
  {
    if k == |p| {
      assert p[..k] == p;
    } else {
      RealHasNoLink(fs, me, p[..|p| - 1], false, k);
      assert p[..|p| - 1][..k] == p[..k];
    }
  }
}
