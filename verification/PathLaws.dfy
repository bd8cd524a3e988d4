// What the two directory rules keep out, and where a link points, in terms of
// the text of its target.
module PathLaws {
  import opened Wrappers
  import opened PathRules

  // ---- who can replace what is in a directory ----

  // Unix permissions: whoever can write a directory can replace its entries, but
  // in a sticky one only the entry's owner, the directory's owner and root can.
  predicate MayReplace(user: nat, dir: Info, entryOwner: nat) {
    user == 0 || dir.uid == Some(user) || (dir.sharedWrite && (!dir.sticky || entryOwner == user))
  }

  // Neither this process's user nor root.
  predicate Stranger(me: nat, user: nat) {
    user != me && user != 0
  }

  // aboveRule passes exactly the directories in which no stranger can replace
  // what is not its own; a sticky directory that all can write is one of them.
  lemma AboveRuleIff(me: nat, dir: Info)
    requires dir.uid.Some?
    ensures AboveRule(me, dir) <==>
            && dir.kind.Directory?
            && forall user, owner :: Stranger(me, user) && owner != user ==> !MayReplace(user, dir, owner)
  {
    if !Foreign(me, dir) && dir.sharedWrite && !dir.sticky {
      assert Stranger(me, me + 1) && MayReplace(me + 1, dir, me);
    }
    if Foreign(me, dir) {
      assert Stranger(me, dir.uid.value) && MayReplace(dir.uid.value, dir, 0);
    }
  }

  // ownerOnly passes exactly those in which no stranger can replace anything.
  lemma OwnerOnlyIff(me: nat, dir: Info)
    requires dir.uid.Some?
    ensures OwnerOnly(me, dir) <==>
            && dir.kind.Directory?
            && forall user, owner :: Stranger(me, user) ==> !MayReplace(user, dir, owner)
  {
    if !Foreign(me, dir) && dir.sharedWrite {
      assert Stranger(me, me + 1) && MayReplace(me + 1, dir, me + 1);
    }
    if Foreign(me, dir) {
      assert Stranger(me, dir.uid.value) && MayReplace(dir.uid.value, dir, 0);
    }
  }

  // A world-writable sticky directory of root's, like /tmp, passes as a directory
  // above and not as the last one.
  lemma StickyIsOnlyAbove(me: nat)
    ensures var tmp := Info(Directory, true, true, Some(0));
      AboveRule(me, tmp) && !OwnerOnly(me, tmp)
  {
  }

  // ---- where a link points ----

  function Parent(p: Path): Path {
    if p == [] then [] else p[..|p| - 1]
  }

  function Join(p: Path): string {
    if p == [] then "" else if |p| == 1 then p[0] else p[0] + "/" + Join(p[1..])
  }

  lemma {:induction false} SplitComponent(n: string, t: string)
    requires '/' !in n
    ensures Split(n) == [n]
    ensures Split(n + "/" + t) == [n] + Split(t)
  {
    var s := n + "/" + t;
    if n == "" {
      assert s[1..] == t;
    } else {
      SplitComponent(n[1..], t);
      assert s[1..] == n[1..] + "/" + t;
      assert [n[0]] + n[1..] == n;
    }
  }

  // An absolute target points to the same place from everywhere.
  lemma AbsoluteTarget(c: Path, d: Path, t: string)
    requires IsAbs(t)
    ensures Target(c, t) == Target(d, t)
  {
  }

  // The first component of a relative target: ".." goes on from the parent, "."
  // from here, a name from below.
  lemma RelativeTarget(c: Path, n: string, t: string)
    requires n != "" && '/' !in n && !IsAbs(t)
    ensures Target(c, n + "/" + t) ==
            Target(if n == "." then c else if n == ".." then Parent(c) else c + [n], t)
  {
    SplitComponent(n, t);
    assert ([n] + Split(t))[1..] == Split(t);
  }

  lemma SplitRooted(t: string)
    ensures Split("/" + t) == [""] + Split(t)
  {
    assert ("/" + t)[1..] == t;
  }

  lemma JoinIsRelative(p: Path)
    requires Proper(p)
    ensures !IsAbs(Join(p))
  {
    if p != [] {
      assert ProperName(p[0]);
    }
  }

  // The text of a path, from anywhere, points below that place; ...
  lemma {:induction false} TargetOfPath(c: Path, p: Path)
    requires Proper(p)
    ensures Target(c, Join(p)) == c + p
    decreases |p|
  {
    JoinIsRelative(p);
    if p == [] {
      assert [""][1..] == [];
    } else if |p| == 1 {
      assert ProperName(p[0]);
      SplitComponent(p[0], "");
      assert CleanOnto(c, [p[0]]) == CleanOnto(c + [p[0]], [p[0]][1..]);
      assert p == [p[0]] == Split(Join(p));
    } else {
      assert ProperName(p[0]);
      JoinIsRelative(p[1..]);
      RelativeTarget(c, p[0], Join(p[1..]));
      TargetOfPath(c + [p[0]], p[1..]);
      assert c + p == (c + [p[0]]) + p[1..];
    }
  }

  // ... with a slash in front, it is that path; ...
  lemma TargetOfRootedPath(c: Path, p: Path)
    requires Proper(p)
    ensures Target(c, "/" + Join(p)) == p
  {
    SplitRooted(Join(p));
    JoinIsRelative(p);
    assert ([""] + Split(Join(p)))[1..] == Split(Join(p));
    TargetOfPath([], p);
  }

  // ... and with "../" in front, it points below the parent.
  lemma TargetOfParentPath(c: Path, p: Path)
    requires Proper(p)
    ensures Target(c, "../" + Join(p)) == Parent(c) + p
  {
    JoinIsRelative(p);
    assert "../" + Join(p) == ".." + "/" + Join(p);
    RelativeTarget(c, "..", Join(p));
    TargetOfPath(Parent(c), p);
  }
}
