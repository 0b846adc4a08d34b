/**
  POSIX path arithmetic used by `ensure_remote_dir`: Python's
  `os.path.dirname` on POSIX, the source's stop test for the upward walk,
  and the list of directories the walk collects (shallowest first).
 */
module Paths {

  /** True when every character of `p` is '/' (so also for ""). */
  predicate AllSlashes(p: string) {
    forall i | 0 <= i < |p| :: p[i] == '/'
  }

  /** True when `p` begins with two slashes: the paths whose walk the source never finishes. */
  predicate LeadingDoubleSlash(p: string) {
    |p| >= 2 && p[0] == '/' && p[1] == '/'
  }

  /** Length of the prefix of `p` that ends with its last '/', or 0 when `p` holds no '/'. */
  function SlashPrefixLen(p: string): (n: nat)
    ensures n <= |p|
    ensures n == 0 || p[n - 1] == '/'
    ensures forall i | n <= i < |p| :: p[i] != '/'
  {
    if p == [] then 0
    else if p[|p| - 1] == '/' then |p|
    else SlashPrefixLen(p[..|p| - 1])
  }

  /** `h` without its trailing slashes. */
  function StripTrailingSlashes(h: string): (r: string)
    ensures r <= h
    ensures r == [] || r[|r| - 1] != '/'
    ensures forall i | |r| <= i < |h| :: h[i] == '/'
  {
    if h != [] && h[|h| - 1] == '/' then StripTrailingSlashes(h[..|h| - 1]) else h
  }

  /**
    POSIX `dirname`: the prefix of `p` up to and including its last '/',
    with trailing slashes removed unless that prefix is made only of slashes.
   */
  function Dirname(p: string): (d: string)
    ensures d <= p
    ensures AllSlashes(p) ==> d == p
    ensures p != [] && !AllSlashes(p) ==> |d| < |p|
  {
    var head := p[..SlashPrefixLen(p)];
    if head != [] && !AllSlashes(head) then StripTrailingSlashes(head) else head
  }

  /** The source's loop guard: the walk stops at '', '/' or '.'. */
  predicate IsStop(p: string) {
    p == "" || p == "/" || p == "."
  }

  /**
    The stop test this model uses: the source's three terminators, and also
    every path made only of slashes (POSIX roots such as "//"), on which
    `Dirname` is the identity.
   */
  predicate IsRoot(p: string) {
    IsStop(p) || AllSlashes(p)
  }

  /**
    The directories `ensure_remote_dir` collects for `p`: its ancestors,
    shallowest first, ending with `p` itself; empty when `p` is a root.
   */
  function Ancestors(p: string): (ds: seq<string>)
    ensures ds == [] <==> IsRoot(p)
    ensures ds != [] ==> ds[|ds| - 1] == p
    decreases |p|
  {
    if IsRoot(p) then [] else Ancestors(Dirname(p)) + [p]
  }

  /**
    The list is ordered shallowest first: each element is `dirname` of the
    next, `dirname` of the first is a root, and every element is a non-root
    prefix of `p`.
   */
  lemma {:induction false} AncestorsChain(p: string)
    ensures var ds := Ancestors(p);
      && (ds != [] ==> IsRoot(Dirname(ds[0])))
      && (forall i | 0 <= i < |ds| - 1 :: Dirname(ds[i + 1]) == ds[i])
      && (forall i | 0 <= i < |ds| :: !IsRoot(ds[i]) && ds[i] <= p)
    decreases |p|
  {
    if !IsRoot(p) {
      var up := Ancestors(Dirname(p));
      AncestorsChain(Dirname(p));
      assert Ancestors(p) == up + [p];
    }
  }

  /** The collected directories get strictly longer, so none is listed twice. */
  lemma {:induction false} AncestorsStrictlyLonger(p: string, i: nat, j: nat)
    requires i < j < |Ancestors(p)|
    ensures |Ancestors(p)[i]| < |Ancestors(p)[j]|
    decreases |p|
  {
    var ds := Ancestors(p);
    var up := Ancestors(Dirname(p));
    assert ds == up + [p];
    AncestorsChain(Dirname(p));
    if j < |ds| - 1 {
      AncestorsStrictlyLonger(Dirname(p), i, j);
    } else {
      assert ds[i] == up[i] && up[i] <= Dirname(p);
    }
  }

  /** A prefix of a path that does not begin with "//" is a root only if the source also stops there. */
  lemma RootPrefixIsStop(q: string, p: string)
    requires q <= p && !LeadingDoubleSlash(p) && IsRoot(q)
    ensures IsStop(q)
  {
  }

  /**
    For every path that does not begin with "//" the corrected walk ends
    exactly where the source's loop does: the list is empty iff the path is
    '', '/' or '.', and otherwise `dirname` of its first element is one of those.
   */
  lemma AncestorsMatchSourceLoop(p: string)
    requires !LeadingDoubleSlash(p)
    ensures Ancestors(p) == [] <==> IsStop(p)
    ensures Ancestors(p) != [] ==> IsStop(Dirname(Ancestors(p)[0]))
    ensures forall i | 0 <= i < |Ancestors(p)| :: !IsStop(Ancestors(p)[i])
  {
    var ds := Ancestors(p);
    AncestorsChain(p);
    if ds == [] {
      RootPrefixIsStop(p, p);
    } else {
      var first := Dirname(ds[0]);
      assert first <= ds[0] <= p;
      RootPrefixIsStop(first, p);
    }
  }

  /** `Dirname` applied `n` times: the values the source's loop variable takes. */
  function Walk(p: string, n: nat): string
    decreases n
  {
    if n == 0 then p else Walk(Dirname(p), n - 1)
  }

  /** `dirname` keeps a leading "//": it never cuts below the run of leading slashes. */
  lemma DirnameKeepsDoubleSlash(p: string)
    requires LeadingDoubleSlash(p)
    ensures LeadingDoubleSlash(Dirname(p))
  {
    var n := SlashPrefixLen(p);
    assert n >= 2;
    var head := p[..n];
    if head != [] && !AllSlashes(head) {
      var k :| 0 <= k < |head| && head[k] != '/';
      var r := StripTrailingSlashes(head);
      assert |r| > k;
    }
  }

  /**
    The source's loop does not terminate on a path beginning with "//":
    every value the loop variable takes still begins with "//", so none is
    '', '/' or '.'.
   */
  lemma {:induction false} SourceWalkNeverStops(p: string, n: nat)
    requires LeadingDoubleSlash(p)
    ensures LeadingDoubleSlash(Walk(p, n)) && !IsStop(Walk(p, n))
    decreases n
  {
    if n > 0 {
      DirnameKeepsDoubleSlash(p);
      SourceWalkNeverStops(Dirname(p), n - 1);
    }
  }

  /** One iteration of the collecting loop keeps the collected suffix in step with `Ancestors`. */
  lemma PrependStep(p: string, dirs: seq<string>, whole: seq<string>)
    requires Ancestors(p) + dirs == whole && !IsRoot(p)
    ensures Ancestors(Dirname(p)) + ([p] + dirs) == whole
  {
  }

  /**
    Phase one of `ensure_remote_dir`: walk upward with `dirname`, prepending
    each path, until the path is a root.
   */
  method CollectDirs(remoteDir: string) returns (dirs: seq<string>)
    ensures dirs == Ancestors(remoteDir)
  {
    dirs := [];
    var p := remoteDir;
    while !IsRoot(p)
      invariant Ancestors(p) + dirs == Ancestors(remoteDir)
      decreases |p|
    {
      PrependStep(p, dirs, Ancestors(remoteDir));
      dirs := [p] + dirs;
      p := Dirname(p);
    }
  }
}
