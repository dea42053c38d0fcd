/**
 The ancestor search for `rustfmt.toml`: starting at a directory, probe
 `<dir>/rustfmt.toml`, stop at the first regular file or at the first probe
 error other than "not found", and otherwise climb to the parent until the
 root is passed.
 */
module PathSearch {
  import opened Wrappers
  import opened Paths
  import opened FileSystem

  /** How one level of the search ends: a match, keep climbing, or abort with an error. */
  datatype Probe = Hit | Skip | Abort(kind: ErrorKind)

  /**
   The `match fs::metadata(..)` on `<dir>/rustfmt.toml`, one level of the search.
   */
  function ProbeAt(env: Env, dir: PathBuf): Probe {
    match Metadata(env, ConfigPath(dir))
    case Ok(RegularFile) => Hit
    case Ok(Directory) => Skip
    case Err(k) => if k == NotFound then Skip else Abort(k)
  }

  /**
   A regular file is a match, a directory of that name or a missing entry is
   passed over, and every other error aborts with that error.
   */
  lemma ProbeClassification(env: Env, dir: PathBuf)
    ensures ProbeAt(env, dir) == Hit <==> IsFile(env, ConfigPath(dir))
    ensures Metadata(env, ConfigPath(dir)) == Ok(Directory) ==> ProbeAt(env, dir) == Skip
    ensures Metadata(env, ConfigPath(dir)) == Err(NotFound) ==> ProbeAt(env, dir) == Skip
    ensures ProbeAt(env, dir).Abort? <==> Metadata(env, ConfigPath(dir)).Err? && Metadata(env, ConfigPath(dir)).error != NotFound
    ensures ProbeAt(env, dir).Abort? ==> Metadata(env, ConfigPath(dir)) == Err(ProbeAt(env, dir).kind)
  {
  }

  /** The result of the search from `current` upward, one level per call. */
  function Search(env: Env, current: PathBuf): Result<Option<PathBuf>, ErrorKind>
    decreases |current.comps|
  {
    match ProbeAt(env, current)
    case Hit => Ok(Some(ConfigPath(current)))
    case Abort(k) => Err(k)
    case Skip =>
      match Parent(current)
      case None => Ok(None)
      case Some(up) => Search(env, up)
  }

  /** The paths handed to `fs::metadata` by the search from `current`, in order. */
  function Probes(env: Env, current: PathBuf): seq<PathBuf>
    decreases |current.comps|
  {
    [ConfigPath(current)] +
    match ProbeAt(env, current)
    case Skip =>
      (match Parent(current)
       case None => []
       case Some(up) => Probes(env, up))
    case _ => []
  }

  /** What the search reports when it stops at directory `d`. */
  function Verdict(env: Env, d: PathBuf): Result<Option<PathBuf>, ErrorKind> {
    match ProbeAt(env, d)
    case Hit => Ok(Some(ConfigPath(d)))
    case Abort(k) => Err(k)
    case Skip => Ok(None)
  }

  /** Every one of the first `i` ancestors of `p` (nearest first) is passed over. */
  ghost predicate SkippedBelow(env: Env, p: PathBuf, i: nat) {
    forall j {:trigger ProbeAt(env, Ancestor(p, j))} :: 0 <= j < i && j <= |p.comps| ==> ProbeAt(env, Ancestor(p, j)) == Skip
  }

  /** The `i`-th ancestor of `p` is the nearest one at which the search cannot go on. */
  ghost predicate NearestDecisive(env: Env, p: PathBuf, i: nat) {
    i <= |p.comps| && SkippedBelow(env, p, i) && ProbeAt(env, Ancestor(p, i)) != Skip
  }

  /** `ps` probes exactly the config paths of ancestors `0 .. i` of `p`, nearest first. */
  ghost predicate ProbesChain(ps: seq<PathBuf>, p: PathBuf, i: nat) {
    i <= |p.comps| && |ps| == i + 1 &&
    forall j {:trigger ps[j]} :: 0 <= j <= i ==> ps[j] == ConfigPath(Ancestor(p, j))
  }

  /** Skipping the ancestors of `p` starting from its parent is skipping them from `p` one level on. */
  lemma SkippedBelowParent(env: Env, p: PathBuf, i: nat)
    requires p.comps != [] && i <= |p.comps|
    ensures SkippedBelow(env, Parent(p).value, i) && ProbeAt(env, p) == Skip <==> SkippedBelow(env, p, i + 1)
  {
    var up := Parent(p).value;
    AncestorZero(p);
    forall j | 0 <= j < i && j <= |up.comps|
      ensures Ancestor(up, j) == Ancestor(p, j + 1)
    {
      AncestorOfParent(p, j);
    }
    if SkippedBelow(env, p, i + 1) {
      assert ProbeAt(env, Ancestor(p, 0)) == Skip;
      forall j | 0 <= j < i && j <= |up.comps|
        ensures ProbeAt(env, Ancestor(up, j)) == Skip
      {
        assert ProbeAt(env, Ancestor(p, j + 1)) == Skip;
      }
    }
    if SkippedBelow(env, up, i) && ProbeAt(env, p) == Skip {
      forall j | 0 <= j < i + 1 && j <= |p.comps|
        ensures ProbeAt(env, Ancestor(p, j)) == Skip
      {
        if j > 0 {
          assert ProbeAt(env, Ancestor(up, j - 1)) == Skip;
        }
      }
    }
  }

  /** A passed-over directory below the root hands both the result and the probes on to its parent. */
  lemma UnfoldSkip(env: Env, p: PathBuf)
    requires ProbeAt(env, p) == Skip && p.comps != []
    ensures Search(env, p) == Search(env, Parent(p).value)
    ensures Probes(env, p) == [ConfigPath(p)] + Probes(env, Parent(p).value)
  {
  }

  /** A directory that is not passed over, or the root, ends the search with its own verdict. */
  lemma UnfoldStop(env: Env, p: PathBuf)
    requires ProbeAt(env, p) != Skip || p.comps == []
    ensures Search(env, p) == Verdict(env, p)
    ensures ProbesChain(Probes(env, p), p, 0)
  {
    AncestorZero(p);
  }

  /** Probing `p` and then the chain above its parent is probing the chain above `p`. */
  lemma ChainOfParent(p: PathBuf, ps: seq<PathBuf>, i: nat)
    requires p.comps != [] && ProbesChain(ps, Parent(p).value, i)
    ensures ProbesChain([ConfigPath(p)] + ps, p, i + 1)
  {
    AncestorZero(p);
    var qs := [ConfigPath(p)] + ps;
    forall j | 0 <= j <= i + 1
      ensures qs[j] == ConfigPath(Ancestor(p, j))
    {
      if j > 0 {
        AncestorOfParent(p, j - 1);
      }
    }
  }

  /**
   Nearest match wins, and an error aborts: the search ends with the verdict of the
   nearest ancestor that is not passed over, and probes exactly the ancestors up to
   that one.
   */
  lemma {:induction false} SearchStopsAtNearest(env: Env, p: PathBuf, i: nat)
    requires NearestDecisive(env, p, i)
    ensures Search(env, p) == Verdict(env, Ancestor(p, i))
    ensures ProbesChain(Probes(env, p), p, i)
    decreases i
  {
    AncestorZero(p);
    if i == 0 {
      UnfoldStop(env, p);
    } else {
      var up := Parent(p).value;
      SkippedBelowParent(env, p, i - 1);
      AncestorOfParent(p, i - 1);
      UnfoldSkip(env, p);
      SearchStopsAtNearest(env, up, i - 1);
      ChainOfParent(p, Probes(env, up), i - 1);
    }
  }

  /**
   The search finds nothing exactly when every ancestor up to the root is passed
   over, and then it has probed each of them once.
   */
  lemma {:induction false} SearchNotFound(env: Env, p: PathBuf)
    ensures Search(env, p) == Ok(None) <==> SkippedBelow(env, p, |p.comps| + 1)
    ensures Search(env, p) == Ok(None) ==> ProbesChain(Probes(env, p), p, |p.comps|)
    decreases |p.comps|
  {
    AncestorZero(p);
    if ProbeAt(env, p) != Skip {
      assert !SkippedBelow(env, p, |p.comps| + 1) by {
        assert ProbeAt(env, Ancestor(p, 0)) != Skip;
      }
    } else if p.comps == [] {
      assert SkippedBelow(env, p, 1);
    } else {
      var up := Parent(p).value;
      SearchNotFound(env, up);
      SkippedBelowParent(env, p, |up.comps| + 1);
      UnfoldSkip(env, p);
      if Search(env, p) == Ok(None) {
        ChainOfParent(p, Probes(env, up), |up.comps|);
      }
    }
  }

  /** Whenever the search reports something, some nearest decisive ancestor exists. */
  lemma {:induction false} SearchDecisive(env: Env, p: PathBuf)
    ensures Search(env, p) != Ok(None) ==> exists i: nat :: NearestDecisive(env, p, i)
    decreases |p.comps|
  {
    AncestorZero(p);
    if ProbeAt(env, p) != Skip {
      assert NearestDecisive(env, p, 0);
    } else if p.comps != [] && Search(env, p) != Ok(None) {
      var up := Parent(p).value;
      SearchDecisive(env, up);
      var i: nat :| NearestDecisive(env, up, i);
      SkippedBelowParent(env, p, i);
      AncestorOfParent(p, i);
      assert NearestDecisive(env, p, i + 1);
    }
  }

  /**
   A found config file is `d/rustfmt.toml` for the nearest ancestor `d` holding a
   regular file of that name, and nothing above `d` was probed.
   */
  lemma NearestMatchWins(env: Env, p: PathBuf, q: PathBuf)
    requires Search(env, p) == Ok(Some(q))
    ensures IsFile(env, q)
    ensures exists i: nat :: NearestDecisive(env, p, i) && ProbeAt(env, Ancestor(p, i)) == Hit
                        && q == ConfigPath(Ancestor(p, i)) && ProbesChain(Probes(env, p), p, i)
  {
    SearchDecisive(env, p);
    var i: nat :| NearestDecisive(env, p, i);
    SearchStopsAtNearest(env, p, i);
  }

  /**
   A probe error other than "not found" at the nearest ancestor not passed over
   ends the search with that error, and no ancestor above it is probed.
   */
  lemma ProbeErrorAborts(env: Env, p: PathBuf, i: nat, k: ErrorKind)
    requires i <= |p.comps| && SkippedBelow(env, p, i)
    requires Metadata(env, ConfigPath(Ancestor(p, i))) == Err(k) && k != NotFound
    ensures Search(env, p) == Err(k)
    ensures ProbesChain(Probes(env, p), p, i)
  {
    SearchStopsAtNearest(env, p, i);
  }

  /**
   An entry named `rustfmt.toml` that is a directory is treated like a missing one:
   if that is all there is along the ancestor chain, the search finds nothing and
   reports no error.
   */
  lemma DirectoriesNamedLikeConfigAreSkipped(env: Env, p: PathBuf)
    requires forall j :: 0 <= j <= |p.comps| ==>
               Metadata(env, ConfigPath(Ancestor(p, j))) == Ok(Directory) ||
               Metadata(env, ConfigPath(Ancestor(p, j))) == Err(NotFound)
    ensures Search(env, p) == Ok(None)
  {
    SearchNotFound(env, p);
  }

  /**
   The search terminates within depth + 1 probes, and what it probes is the
   ancestor chain, nearest first, with nothing skipped.
   */
  lemma {:induction false} ProbesClimbChain(env: Env, p: PathBuf)
    ensures 1 <= |Probes(env, p)| <= |p.comps| + 1
    ensures ProbesChain(Probes(env, p), p, |Probes(env, p)| - 1)
    decreases |p.comps|
  {
    AncestorZero(p);
    if ProbeAt(env, p) == Skip && p.comps != [] {
      var up := Parent(p).value;
      ProbesClimbChain(env, up);
      var ps := Probes(env, p);
      forall j | 0 <= j < |ps|
        ensures ps[j] == ConfigPath(Ancestor(p, j))
      {
        if j > 0 {
          AncestorOfParent(p, j - 1);
        }
      }
    }
  }

  /**
   What one pass of the loop sees in the metadata of `d/rustfmt.toml`: a regular
   file is a match, an error other than NotFound aborts, and anything else passes
   `d` over.
   */
  lemma MetadataVerdict(env: Env, d: PathBuf)
    ensures var md := Metadata(env, ConfigPath(d));
            md == Ok(RegularFile) ==> ProbeAt(env, d) == Hit && Verdict(env, d) == Ok(Some(ConfigPath(d)))
    ensures var md := Metadata(env, ConfigPath(d));
            md.Err? && md.error != NotFound ==> ProbeAt(env, d) == Abort(md.error) && Verdict(env, d) == Err(md.error)
    ensures var md := Metadata(env, ConfigPath(d));
            md != Ok(RegularFile) && !(md.Err? && md.error != NotFound) ==> ProbeAt(env, d) == Skip && Verdict(env, d) == Ok(None)
  {
  }

  /** `probed` holds the config paths of the first `n` ancestors of `root`, nearest first. */
  ghost predicate ProbedBelow(probed: seq<PathBuf>, root: PathBuf, n: nat) {
    n <= |root.comps| + 1 && |probed| == n &&
    forall j {:trigger probed[j]} :: 0 <= j < n ==> probed[j] == ConfigPath(Ancestor(root, j))
  }

  /**
   Where the loop returns, at the `n`-th ancestor of `root`: because every ancestor
   below it was passed over, the search's result is that ancestor's verdict and its
   probes are the ones made so far plus this one.
   */
  lemma LoopExit(env: Env, root: PathBuf, n: nat, probed: seq<PathBuf>)
    requires n <= |root.comps| && SkippedBelow(env, root, n) && ProbedBelow(probed, root, n)
    requires ProbeAt(env, Ancestor(root, n)) != Skip || n == |root.comps|
    ensures Search(env, root) == Verdict(env, Ancestor(root, n))
    ensures probed + [ConfigPath(Ancestor(root, n))] == Probes(env, root)
  {
    if ProbeAt(env, Ancestor(root, n)) != Skip {
      SearchStopsAtNearest(env, root, n);
    } else {
      assert SkippedBelow(env, root, n + 1);
      SearchNotFound(env, root);
    }
    ChainExtends(probed, Probes(env, root), root, n);
  }

  /** The probes made so far, followed by the current one, are the first `n + 1` links of the chain. */
  lemma ChainExtends(probed: seq<PathBuf>, ps: seq<PathBuf>, root: PathBuf, n: nat)
    requires ProbedBelow(probed, root, n) && ProbesChain(ps, root, n)
    ensures probed + [ConfigPath(Ancestor(root, n))] == ps
  {
    var qs := probed + [ConfigPath(Ancestor(root, n))];
    forall j | 0 <= j < |ps|
      ensures qs[j] == ps[j]
    {
      if j < n {
        assert probed[j] == ConfigPath(Ancestor(root, j));
      }
    }
  }

  /** One pass of the loop over a passed-over ancestor extends the probes made so far. */
  lemma LoopStep(env: Env, root: PathBuf, n: nat, probed: seq<PathBuf>)
    requires n < |root.comps| && SkippedBelow(env, root, n) && ProbedBelow(probed, root, n)
    requires ProbeAt(env, Ancestor(root, n)) == Skip
    ensures Parent(Ancestor(root, n)) == Some(Ancestor(root, n + 1))
    ensures SkippedBelow(env, root, n + 1)
    ensures ProbedBelow(probed + [ConfigPath(Ancestor(root, n))], root, n + 1)
  {
    ParentOfAncestor(root, n);
    var qs := probed + [ConfigPath(Ancestor(root, n))];
    forall j | 0 <= j < n + 1
      ensures qs[j] == ConfigPath(Ancestor(root, j))
    {
      if j < n {
        assert probed[j] == ConfigPath(Ancestor(root, j));
      }
    }
  }

  /**
   Where the search starts: a relative directory joined below the current
   directory, an absolute one as it is, then canonicalised once.
   */
  function SearchRoot(env: Env, dir: PathBuf): (r: Result<PathBuf, ErrorKind>)
    ensures dir.absolute ==> r == Canonicalize(env, dir)
    ensures !dir.absolute && env.cwd.Err? ==> r == Err(env.cwd.error)
    ensures !dir.absolute && env.cwd.Ok? ==> r == Canonicalize(env, Join(env.cwd.value, dir))
  {
    match Absolutize(env, dir)
    case Err(k) => Err(k)
    case Ok(start) => Canonicalize(env, start)
  }

  /**
   In a well-formed environment every path the search probes is absolute, so
   `fs::metadata` never resolves a probe against the current directory.
   */
  lemma LookupProbesAreAbsolute(env: Env, dir: PathBuf)
    requires WellFormed(env)
    ensures forall q :: q in LookupProbes(env, dir) ==> q.absolute
  {
    if SearchRoot(env, dir).Ok? {
      var root := SearchRoot(env, dir).value;
      ProbesClimbChain(env, root);
    }
  }

  /** What `lookup_project_file` returns. */
  function Lookup(env: Env, dir: PathBuf): Result<Option<PathBuf>, ErrorKind> {
    match SearchRoot(env, dir)
    case Err(k) => Err(k)
    case Ok(root) => Search(env, root)
  }

  /** The paths `lookup_project_file` hands to `fs::metadata`. */
  function LookupProbes(env: Env, dir: PathBuf): seq<PathBuf> {
    match SearchRoot(env, dir)
    case Err(_) => []
    case Ok(root) => Probes(env, root)
  }

  /**
   `lookup_project_file`: a loop that probes `current/rustfmt.toml` and pops
   `current` until it finds a regular file, meets an error, or passes the root.
   `probed` records the probes it makes.
   */
  method LookupProjectFile(env: Env, dir: PathBuf) returns (r: Result<Option<PathBuf>, ErrorKind>, ghost probed: seq<PathBuf>)
    ensures r == Lookup(env, dir)
    ensures probed == LookupProbes(env, dir)
  {
    probed := [];
    var start := Absolutize(env, dir);
    if start.Err? {
      r := Err(start.error);
      return;
    }
    var canonical := Canonicalize(env, start.value);
    if canonical.Err? {
      r := Err(canonical.error);
      return;
    }
    var current := canonical.value;
    ghost var root := current;
    ghost var n: nat := 0;
    AncestorZero(root);
    while true
      invariant n <= |root.comps| && current == Ancestor(root, n)
      invariant SkippedBelow(env, root, n)
      invariant ProbedBelow(probed, root, n)
      decreases |root.comps| - n
    {
      var configFile := ConfigPath(current);
      MetadataVerdict(env, current);
      var md := Metadata(env, configFile);
      if md == Ok(RegularFile) {
        LoopExit(env, root, n, probed);
        probed := probed + [configFile];
        r := Ok(Some(configFile));
        return;
      }
      if md.Err? && md.error != NotFound {
        LoopExit(env, root, n, probed);
        probed := probed + [configFile];
        r := Err(md.error);
        return;
      }
      var up := Parent(current);
      if up.None? {
        LoopExit(env, root, n, probed);
        probed := probed + [configFile];
        r := Ok(None);
        return;
      }
      LoopStep(env, root, n, probed);
      probed := probed + [configFile];
      current, n := up.value, n + 1;
    }
  }
}
