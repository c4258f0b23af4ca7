/** Lexical containment of thumbnail paths that come out of uploaded gcode metadata. */
module PathGuard {
  import opened Text

  const MAX_PATH: nat := 512
  const BOTH: set<char> := {'/', '\\'}

  /** The components of `p` from `start` on, separated by characters of `seps`. */
  function Components(p: string, seps: set<char>, start: nat): (cs: seq<string>)
    requires start <= |p|
    ensures cs != []
    decreases |p| - start
  {
    var sep := Find(p, seps, start);
    if sep == |p| then [p[start..]] else [p[start..sep]] + Components(p, seps, sep + 1)
  }

  /** The promise: a plain relative path, NUL-free and of bounded length, with no ".." component. */
  ghost predicate Contained(p: string) {
    && 0 < |p| <= 512
    && p[0] != '/' && p[0] != '\\'
    && '\0' !in p
    && ".." !in Components(p, {'/', '\\'}, 0)
  }

  lemma ComponentsStep(p: string, start: nat)
    requires start <= |p|
    ensures var sep := Find(p, BOTH, start);
            ".." in Components(p, BOTH, start) <==>
              p[start..sep] == ".." || (sep < |p| && ".." in Components(p, BOTH, sep + 1))
  {
    hide Find;
    var sep, cs := Find(p, BOTH, start), Components(p, BOTH, start);
    assert p[start..|p|] == p[start..];
    assert cs[0] == p[start..sep];
  }

  /** The scanning loop accepts exactly the contained paths. */
  method SafeThumbPath(p: string) returns (ok: bool)
    ensures ok <==> Contained(p)
  {
    if p == "" || |p| > MAX_PATH {
      return false;
    }
    if p[0] == '/' || p[0] == '\\' {
      return false;
    }
    if '\0' in p {
      return false;
    }
    hide Find, Components;
    var start := 0;
    while start <= |p|
      invariant start <= |p|
      invariant ".." in Components(p, BOTH, 0) <==> ".." in Components(p, BOTH, start)
      decreases |p| - start
    {
      var sep := Find(p, BOTH, start);
      ComponentsStep(p, start);
      if p[start..sep] == ".." {
        return false;
      }
      if sep == |p| {
        break;
      }
      start := sep + 1;
    }
    return true;
  }

  // ---- resolving an accepted path ----

  /** How far below the root a walk over components ends; `None` once it has left the root. */
  function Walk(cs: seq<string>, depth: nat): Option<nat> {
    if cs == [] then Some(depth)
    else if cs[0] == "" || cs[0] == "." then Walk(cs[1..], depth)
    else if cs[0] != ".." then Walk(cs[1..], depth + 1)
    else if depth == 0 then None
    else Walk(cs[1..], depth - 1)
  }

  lemma {:induction false} NoParentNoClimb(cs: seq<string>, depth: nat)
    requires ".." !in cs
    ensures Walk(cs, depth).Some? && Walk(cs, depth).value >= depth
  {
    if cs != [] {
      NoParentNoClimb(cs[1..], if cs[0] == "" || cs[0] == "." then depth else depth + 1);
    }
  }

  /** Two dots standing alone at `i`, scanning from `start`. */
  predicate ParentAt(p: string, seps: set<char>, start: nat, i: nat) {
    && start <= i && i + 2 <= |p| && p[i] == '.' && p[i + 1] == '.'
    && (i == start || p[i - 1] in seps) && (i + 2 == |p| || p[i + 2] in seps)
  }

  lemma {:induction false} ParentFound(p: string, seps: set<char>, start: nat) returns (i: nat)
    requires start <= |p| && ".." in Components(p, seps, start)
    ensures ParentAt(p, seps, start, i)
    decreases |p| - start
  {
    var sep, cs := Find(p, seps, start), Components(p, seps, start);
    assert cs[0] == p[start..sep];
    if cs[0] == ".." {
      assert p[start..sep][0] == p[start] && p[start..sep][1] == p[start + 1];
      i := start;
    } else {
      i := ParentFound(p, seps, sep + 1);
    }
  }

  lemma {:induction false} ParentIsComponent(p: string, seps: set<char>, start: nat, i: nat)
    requires start <= |p| && '.' !in seps && ParentAt(p, seps, start, i)
    ensures ".." in Components(p, seps, start)
    decreases |p| - start
  {
    var sep, cs := Find(p, seps, start), Components(p, seps, start);
    if i == start {
      assert sep == i + 2;
      assert p[start..sep] == "..";
      assert cs[0] == "..";
    } else {
      assert sep <= i - 1;
      ParentIsComponent(p, seps, sep + 1, i);
      assert cs == [p[start..sep]] + Components(p, seps, sep + 1);
    }
  }

  /**
   Whichever way the reader splits it, on "/" alone or on both separators, an accepted path is
   relative and its walk never rises above the root, at any prefix of its components.
   */
  lemma AcceptedStaysBelowRoot(p: string, seps: set<char>, n: nat)
    requires Contained(p) && (seps == {'/'} || seps == {'/', '\\'})
    requires n <= |Components(p, seps, 0)|
    ensures p[0] !in seps
    ensures Walk(Components(p, seps, 0)[..n], 0).Some?
  {
    var cs := Components(p, seps, 0);
    if ".." in cs {
      var i := ParentFound(p, seps, 0);
      ParentIsComponent(p, BOTH, 0, i);
    }
    NoParentNoClimb(cs[..n], 0);
  }
}
