/**
 Paths as the standard library's `PathBuf` sees them: a flag saying whether the
 path starts at the filesystem root, then its normal components, outermost first.
 */
module Paths {
  import opened Wrappers

  datatype PathBuf = PathBuf(absolute: bool, comps: seq<string>)

  /** The file name probed in every directory of the ancestor chain. */
  const ConfigFileName: string := "rustfmt.toml"

  /** `a` is `p` itself or one of the directories above it. */
  predicate IsAncestor(a: PathBuf, p: PathBuf) {
    a.absolute == p.absolute && |a.comps| <= |p.comps| && a.comps == p.comps[..|a.comps|]
  }

  /** `PathBuf::push` of a single file name. */
  function Push(p: PathBuf, name: string): (r: PathBuf)
    ensures IsAncestor(p, r) && |r.comps| == |p.comps| + 1 && r.comps[|p.comps|] == name
  {
    PathBuf(p.absolute, p.comps + [name])
  }

  /** `Path::join`: an absolute `rel` replaces `base`, a relative one is appended below it. */
  function Join(base: PathBuf, rel: PathBuf): (r: PathBuf)
    ensures rel.absolute ==> r == rel
    ensures !rel.absolute ==> IsAncestor(base, r) && r.comps[|base.comps|..] == rel.comps
  {
    if rel.absolute then rel else PathBuf(base.absolute, base.comps + rel.comps)
  }

  /**
   `Path::parent`, which is also what `PathBuf::pop` leaves behind. There is none
   exactly when no component is left (the root `/`, or the empty relative path).
   */
  function Parent(p: PathBuf): (r: Option<PathBuf>)
    ensures r.None? <==> p.comps == []
    ensures r.Some? ==> Push(r.value, p.comps[|p.comps| - 1]) == p
  {
    if p.comps == [] then None else Some(PathBuf(p.absolute, p.comps[..|p.comps| - 1]))
  }

  /** `<dir>/rustfmt.toml`: a path one level below `dir`, named `rustfmt.toml`. */
  function ConfigPath(dir: PathBuf): (r: PathBuf)
    ensures IsAncestor(dir, r) && |r.comps| == |dir.comps| + 1 && r.comps[|dir.comps|] == ConfigFileName
  {
    Push(dir, ConfigFileName)
  }

  /** The directory `i` levels above `p`; `Ancestor(p, 0)` is `p` itself. */
  function Ancestor(p: PathBuf, i: nat): (a: PathBuf)
    requires i <= |p.comps|
    ensures IsAncestor(a, p) && |a.comps| == |p.comps| - i
  {
    PathBuf(p.absolute, p.comps[..|p.comps| - i])
  }

  /** The parent of a path with a name pushed onto it is the path it was pushed onto. */
  lemma PushThenParent(p: PathBuf, name: string)
    ensures Parent(Push(p, name)) == Some(p)
  {
  }

  /** Going one level up from the `i`-th ancestor reaches the `i + 1`-th one. */
  lemma ParentOfAncestor(p: PathBuf, i: nat)
    requires i < |p.comps|
    ensures Parent(Ancestor(p, i)) == Some(Ancestor(p, i + 1))
  {
    var n := |p.comps|;
    assert p.comps[..n - i][..n - i - 1] == p.comps[..n - (i + 1)];
  }

  /** The ancestors of a path's parent are the path's own ancestors, one level further up. */
  lemma AncestorOfParent(p: PathBuf, i: nat)
    requires p.comps != [] && i < |p.comps|
    ensures Ancestor(Parent(p).value, i) == Ancestor(p, i + 1)
  {
  }

  /** A path is its own nearest ancestor. */
  lemma AncestorZero(p: PathBuf)
    ensures Ancestor(p, 0) == p
  {
  }
}
