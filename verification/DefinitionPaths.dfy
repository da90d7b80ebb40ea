/** Paths of definition files, relative to the config root, and the rank that orders their writes. */
module DefinitionPaths {

  /** A path as its segments; the segments of a cleaned path are neither empty nor ".". */
  type Path = seq<string>

  predicate IsClean(p: Path) {
    && (forall i :: 0 <= i < |p| ==> p[i] != "" && p[i] != ".")
    && (forall i :: 0 < i < |p| && p[i] == ".." ==> p[i - 1] == "..")
  }

  function Push(done: Path, segment: string): Path {
    if segment == "" || segment == "." then done
    else if segment == ".." && done != [] && done[|done| - 1] != ".." then done[..|done| - 1]
    else done + [segment]
  }

  /** filepath.Clean of a relative path, on segments. */
  function Clean(p: Path): (r: Path)
    ensures IsClean(r)
  {
    if p == [] then []
    else
      var done, segment := Clean(p[..|p| - 1]), p[|p| - 1];
      Push(done, segment)
  }

  lemma CleanPrefix(p: Path)
    requires p != [] && IsClean(p)
    ensures IsClean(p[..|p| - 1])
  {
  }

  /** Cleaning twice is cleaning once, so equal files have equal plan entries. */
  lemma {:induction false} CleanIsStable(p: Path)
    requires IsClean(p)
    ensures Clean(p) == p
  {
    if p != [] {
      var done, segment := p[..|p| - 1], p[|p| - 1];
      CleanPrefix(p);
      CleanIsStable(done);
      assert done + [segment] == p;
      assert segment == ".." && done != [] ==> done[|done| - 1] == "..";
    }
  }

  /** safeJoin accepts a cleaned path that stays beneath the root. */
  predicate Inside(p: Path) {
    p != [] && p[0] != ".."
  }

  /** Such a path never climbs, not even through its later segments. */
  lemma {:induction false} InsideNeverClimbs(p: Path, i: nat)
    requires IsClean(p) && Inside(p) && i < |p|
    ensures p[i] != ".."
  {
    if i > 0 { InsideNeverClimbs(p, i - 1); }
  }

  /** commitRank: what is referenced comes before what references it. */
  function Rank(p: Path): (rank: nat)
    ensures rank <= 3
  {
    if p == [] then 3
    else if p[0] == "agents" then 0
    else if p[0] == "teams" then 1
    else if p[0] == "flows" then 2
    else 3
  }
}
