// Paths as sequences of names, what one lookup reports, and the two ownership
// rules a directory on a private path may be held to.
module PathRules {
  import opened Wrappers

  type Name = string
  type Path = seq<Name>

  const MAX_PATH_LINKS: nat := 40

  datatype Kind = Directory | Symlink | Other

  // sharedWrite: group or others can write. uid is unknown on a platform
  // without owners.
  datatype Info = Info(kind: Kind, sharedWrite: bool, sticky: bool, uid: Option<nat>)

  predicate Foreign(me: nat, fi: Info) {
    fi.uid.Some? && fi.uid.value != me && fi.uid.value != 0
  }

  // ownerOnly: the rule for the last directory.
  predicate OwnerOnly(me: nat, fi: Info) {
    fi.kind.Directory? && !fi.sharedWrite && !Foreign(me, fi)
  }

  // aboveRule: the rule for a directory above the last.
  predicate AboveRule(me: nat, fi: Info) {
    fi.kind.Directory? && !Foreign(me, fi) && (fi.sharedWrite ==> fi.sticky)
  }

  predicate LastRule(me: nat, leaf: bool, fi: Info) {
    if leaf then OwnerOnly(me, fi) else AboveRule(me, fi)
  }

  // ---- lexical cleaning ----

  predicate ProperName(n: Name) {
    n != "" && n != "." && n != ".." && '/' !in n
  }

  predicate Proper(p: Path) {
    forall n <- p :: ProperName(n)
  }

  // The components of a string between separators, empty ones included.
  function Split(s: string): (r: seq<Name>)
    ensures |r| > 0
  {
    if s == "" then [""]
    else
      var rest := Split(s[1..]);
      if s[0] == '/' then [""] + rest else [[s[0]] + rest[0]] + rest[1..]
  }

  lemma {:induction false} SplitHasNoSlash(s: string)
    ensures forall n <- Split(s) :: '/' !in n
  {
    if s != "" {
      SplitHasNoSlash(s[1..]);
      var rest := Split(s[1..]);
      assert rest[0] in rest;
    }
  }

  // filepath.Join and filepath.Clean below a directory that is already clean:
  // empty and "." vanish, ".." takes one component back, and stops at the root.
  function CleanOnto(base: Path, names: seq<Name>): Path
    decreases |names|
  {
    if names == [] then base
    else
      var n := names[0];
      var base' :=
        if n == "" || n == "." then base
        else if n == ".." then (if base == [] then [] else base[..|base| - 1])
        else base + [n];
      CleanOnto(base', names[1..])
  }

  lemma {:induction false} CleanIsProper(base: Path, names: seq<Name>)
    requires Proper(base) && forall n <- names :: '/' !in n
    ensures Proper(CleanOnto(base, names))
    decreases |names|
  {
    if names != [] {
      var n := names[0];
      if n == "" || n == "." {
        CleanIsProper(base, names[1..]);
      } else if n == ".." {
        CleanIsProper(if base == [] then [] else base[..|base| - 1], names[1..]);
      } else {
        CleanIsProper(base + [n], names[1..]);
      }
    }
  }

  predicate IsAbs(s: string) {
    s != "" && s[0] == '/'
  }

  // Where a link found in directory cur points, lexically.
  function Target(cur: Path, target: string): Path {
    CleanOnto(if IsAbs(target) then [] else cur, Split(target))
  }
}
