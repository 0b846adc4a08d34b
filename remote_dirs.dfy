/**
  Phase two of `ensure_remote_dir`: over the collected directories, in
  order, `stat` each one and `mkdir` it whenever the `stat` raises an
  IOError. The remote side is an abstract SFTP server: its set of
  directories, the paths whose `stat` fails for a reason other than
  "no such file", and the paths where `mkdir` is refused.
 */
module RemoteDirs {
  import opened Wrappers
  import opened Paths

  /** What `sftp.stat` does: return, raise "no such file", or raise another IOError. */
  datatype StatResult = Exists | Missing | StatDenied

  /** One call issued to the server. */
  datatype Event = Stat(path: string) | Mkdir(path: string)

  datatype Server = Server(dirs: set<string>, unreadable: set<string>, readOnly: set<string>)

  function StatOf(s: Server, p: string): StatResult {
    if p in s.unreadable then StatDenied
    else if p in s.dirs then Exists
    else Missing
  }

  /** `mkdir` succeeds when the path is not yet a directory and the server does not refuse it. */
  predicate MkdirAllowed(s: Server, p: string) {
    p !in s.dirs && p !in s.readOnly
  }

  /** The parent directory of `p` exists: it is a root, or a directory of the server. */
  predicate ParentPresent(s: Server, p: string) {
    IsRoot(Dirname(p)) || Dirname(p) in s.dirs
  }

  /** The server after a phase-two run, the calls it received, and the path whose `mkdir` raised, if any. */
  datatype Run = Run(server: Server, events: seq<Event>, failedAt: Option<string>)

  /**
    Phase two over `ps`: every IOError from `stat` leads to `mkdir`; the
    first `mkdir` that raises ends the run, naming its path.
   */
  function Ensure(s: Server, ps: seq<string>): (r: Run)
    ensures r.failedAt.Some? ==> r.failedAt.value in ps
    decreases |ps|
  {
    if ps == [] then Run(s, [], None)
    else
      var p := ps[0];
      if StatOf(s, p) == Exists then
        var rest := Ensure(s, ps[1..]);
        rest.(events := [Stat(p)] + rest.events)
      else if MkdirAllowed(s, p) then
        var rest := Ensure(s.(dirs := s.dirs + {p}), ps[1..]);
        rest.(events := [Stat(p), Mkdir(p)] + rest.events)
      else
        Run(s, [Stat(p), Mkdir(p)], Some(p))
  }

  /**
    A run never removes a directory, adds none outside `ps`, leaves the
    server's refusals as they were, and when no `mkdir` raised every path
    of `ps` is a directory afterwards.
   */
  lemma {:induction false} EnsureEffect(s: Server, ps: seq<string>)
    ensures var r := Ensure(s, ps);
      && r.server.unreadable == s.unreadable && r.server.readOnly == s.readOnly
      && s.dirs <= r.server.dirs
      && (forall d | d in r.server.dirs && d !in s.dirs :: d in ps)
      && (r.failedAt == None ==> forall p | p in ps :: p in r.server.dirs)
    decreases |ps|
  {
    if ps != [] {
      var p := ps[0];
      if StatOf(s, p) == Exists {
        EnsureEffect(s, ps[1..]);
      } else if MkdirAllowed(s, p) {
        EnsureEffect(s.(dirs := s.dirs + {p}), ps[1..]);
      }
    }
  }

  /** The paths of the `stat` calls in `es`, in order. */
  function StatPaths(es: seq<Event>): seq<string> {
    if es == [] then []
    else (if es[0].Stat? then [es[0].path] else []) + StatPaths(es[1..])
  }

  /** The paths of the `mkdir` calls in `es`, in order. */
  function MkdirPaths(es: seq<Event>): seq<string> {
    if es == [] then []
    else (if es[0].Mkdir? then [es[0].path] else []) + MkdirPaths(es[1..])
  }

  /** The paths of `ps` whose `stat` on `s` raises, in order. */
  function StatFailures(s: Server, ps: seq<string>): seq<string> {
    if ps == [] then []
    else (if StatOf(s, ps[0]) != Exists then [ps[0]] else []) + StatFailures(s, ps[1..])
  }

  predicate Distinct(ps: seq<string>) {
    forall i, j | 0 <= i < j < |ps| :: ps[i] != ps[j]
  }

  lemma StatPathsAppend(a: seq<Event>, b: seq<Event>)
    ensures StatPaths(a + b) == StatPaths(a) + StatPaths(b)
    ensures MkdirPaths(a + b) == MkdirPaths(a) + MkdirPaths(b)
  {
    StatPathsOfAppend(a, b);
    MkdirPathsOfAppend(a, b);
  }

  lemma {:induction false} StatPathsOfAppend(a: seq<Event>, b: seq<Event>)
    ensures StatPaths(a + b) == StatPaths(a) + StatPaths(b)
  {
    if a == [] {
      assert a + b == b;
    } else {
      assert (a + b)[0] == a[0] && (a + b)[1..] == a[1..] + b;
      StatPathsOfAppend(a[1..], b);
      var head := if a[0].Stat? then [a[0].path] else [];
      assert StatPaths(a + b) == head + (StatPaths(a[1..]) + StatPaths(b));
      assert StatPaths(a) == head + StatPaths(a[1..]);
    }
  }

  lemma {:induction false} MkdirPathsOfAppend(a: seq<Event>, b: seq<Event>)
    ensures MkdirPaths(a + b) == MkdirPaths(a) + MkdirPaths(b)
  {
    if a == [] {
      assert a + b == b;
    } else {
      assert (a + b)[0] == a[0] && (a + b)[1..] == a[1..] + b;
      MkdirPathsOfAppend(a[1..], b);
      var head := if a[0].Mkdir? then [a[0].path] else [];
      assert MkdirPaths(a + b) == head + (MkdirPaths(a[1..]) + MkdirPaths(b));
      assert MkdirPaths(a) == head + MkdirPaths(a[1..]);
    }
  }

  lemma BlockPaths(p: string)
    ensures StatPaths([Stat(p)]) == [p] && MkdirPaths([Stat(p)]) == []
    ensures StatPaths([Stat(p), Mkdir(p)]) == [p] && MkdirPaths([Stat(p), Mkdir(p)]) == [p]
  {
    assert [Stat(p)][1..] == [];
    assert [Stat(p), Mkdir(p)][1..] == [Mkdir(p)];
    assert [Mkdir(p)][1..] == [];
  }

  /**
    Exactly one `stat` per processed path, in list order: all of `ps` when
    no `mkdir` raised, otherwise the paths up to and including the failing one.
   */
  lemma {:induction false} EnsureStatsInOrder(s: Server, ps: seq<string>)
    ensures var r := Ensure(s, ps);
      && StatPaths(r.events) <= ps
      && (r.failedAt == None ==> StatPaths(r.events) == ps)
      && (r.failedAt.Some? ==> StatPaths(r.events) != [] && StatPaths(r.events)[|StatPaths(r.events)| - 1] == r.failedAt.value)
    decreases |ps|
  {
    if ps != [] {
      var p := ps[0];
      BlockPaths(p);
      assert ps == [p] + ps[1..];
      if StatOf(s, p) == Exists {
        var rest := Ensure(s, ps[1..]);
        EnsureStatsInOrder(s, ps[1..]);
        StatPathsAppend([Stat(p)], rest.events);
      } else if MkdirAllowed(s, p) {
        var rest := Ensure(s.(dirs := s.dirs + {p}), ps[1..]);
        EnsureStatsInOrder(s.(dirs := s.dirs + {p}), ps[1..]);
        StatPathsAppend([Stat(p), Mkdir(p)], rest.events);
      }
    }
  }

  /**
    `mkdir` is issued only for paths whose `stat` raised, in list order:
    on a list without repetitions the `mkdir` calls are exactly the paths,
    among those processed, that the server did not report as existing
    before the run.
   */
  lemma {:induction false} EnsureMkdirsOnlyAfterFailedStat(s: Server, ps: seq<string>)
    requires Distinct(ps)
    ensures var r := Ensure(s, ps);
      MkdirPaths(r.events) == StatFailures(s, StatPaths(r.events))
    decreases |ps|
  {
    if ps != [] {
      var p := ps[0];
      var r := Ensure(s, ps);
      assert Distinct(ps[1..]);
      if StatOf(s, p) == Exists {
        BlockPaths(p);
        var rest := Ensure(s, ps[1..]);
        EnsureMkdirsOnlyAfterFailedStat(s, ps[1..]);
        StatPathsAppend([Stat(p)], rest.events);
        assert StatPaths(r.events) == [p] + StatPaths(rest.events);
      } else if MkdirAllowed(s, p) {
        var s' := s.(dirs := s.dirs + {p});
        BlockPaths(p);
        var rest := Ensure(s', ps[1..]);
        EnsureMkdirsOnlyAfterFailedStat(s', ps[1..]);
        StatPathsAppend([Stat(p), Mkdir(p)], rest.events);
        EnsureStatsInOrder(s', ps[1..]);
        StatFailuresUnaffected(s, p, StatPaths(rest.events));
        assert StatPaths(r.events) == [p] + StatPaths(rest.events);
      } else {
        BlockPaths(p);
      }
    }
  }

  /** Adding a directory `p` does not change what `stat` reports for paths that are not `p`. */
  lemma StatFailuresUnaffected(s: Server, p: string, qs: seq<string>)
    requires p !in qs
    ensures StatFailures(s.(dirs := s.dirs + {p}), qs) == StatFailures(s, qs)
  {
    if qs != [] {
      StatFailuresUnaffected(s, p, qs[1..]);
    }
  }

  /** Each element of `ps` is `dirname` of the next one. */
  predicate IsChain(ps: seq<string>) {
    forall i | 0 <= i < |ps| - 1 :: Dirname(ps[i + 1]) == ps[i]
  }

  /** The server admits the creation of every path of `ps` that it does not already show. */
  predicate Creatable(s: Server, ps: seq<string>) {
    forall p | p in ps :: p !in s.readOnly && !(p in s.unreadable && p in s.dirs)
  }

  /**
    When no path is refused and no existing path hides behind a failing
    `stat`, no `mkdir` of a list without repetitions raises.
   */
  lemma {:induction false} EnsureSucceeds(s: Server, ps: seq<string>)
    requires Distinct(ps) && Creatable(s, ps)
    ensures Ensure(s, ps).failedAt == None
    decreases |ps|
  {
    if ps != [] {
      var p := ps[0];
      var s' := if StatOf(s, p) == Exists then s else s.(dirs := s.dirs + {p});
      assert Distinct(ps[1..]);
      assert p !in ps[1..];
      EnsureSucceeds(s', ps[1..]);
    }
  }

  /**
    Along a run, every `mkdir` is issued when the parent of its path is
    present at that moment.
   */
  predicate MkdirsFindParents(s: Server, ps: seq<string>)
    decreases |ps|
  {
    ps != [] ==>
      var p := ps[0];
      if StatOf(s, p) == Exists then MkdirsFindParents(s, ps[1..])
      else ParentPresent(s, p) && (MkdirAllowed(s, p) ==> MkdirsFindParents(s.(dirs := s.dirs + {p}), ps[1..]))
  }

  /**
    Walking a chain shallowest first creates parents before children: when
    the first path's parent is present, every `mkdir` finds its parent.
   */
  lemma {:induction false} ChainCreatesParentsFirst(s: Server, ps: seq<string>)
    requires IsChain(ps)
    requires ps != [] ==> ParentPresent(s, ps[0])
    ensures MkdirsFindParents(s, ps)
    decreases |ps|
  {
    if ps != [] {
      var p := ps[0];
      var s' := if StatOf(s, p) == Exists then s else s.(dirs := s.dirs + {p});
      assert IsChain(ps[1..]);
      if |ps| > 1 {
        assert Dirname(ps[1]) == p && p in s'.dirs;
      }
      ChainCreatesParentsFirst(s', ps[1..]);
    }
  }

  /** The directories `ensure_remote_dir` collects form a chain without repetitions whose first parent is a root. */
  lemma AncestorsShape(p: string)
    ensures IsChain(Ancestors(p)) && Distinct(Ancestors(p))
    ensures Ancestors(p) != [] ==> IsRoot(Dirname(Ancestors(p)[0]))
  {
    AncestorsChain(p);
    var ds := Ancestors(p);
    forall i, j | 0 <= i < j < |ds|
      ensures ds[i] != ds[j]
    {
      AncestorsStrictlyLonger(p, i, j);
    }
  }

  /**
    `ensure_remote_dir` creates parents before children: on any server,
    each `mkdir` it issues finds the parent of its path present.
   */
  lemma EnsureRemoteDirParentsFirst(s: Server, p: string)
    ensures MkdirsFindParents(s, Ancestors(p))
  {
    AncestorsShape(p);
    ChainCreatesParentsFirst(s, Ancestors(p));
  }

  /** The calls of a run on which every path already exists: one `stat` each. */
  function StatsOnly(ps: seq<string>): (es: seq<Event>)
    ensures StatPaths(es) == ps && MkdirPaths(es) == []
  {
    if ps == [] then [] else [Stat(ps[0])] + StatsOnly(ps[1..])
  }

  /** When every path exists and can be `stat`ed, a run issues only `stat`s and changes nothing. */
  lemma {:induction false} EnsureAllPresent(s: Server, ps: seq<string>)
    requires forall p | p in ps :: p in s.dirs && p !in s.unreadable
    ensures Ensure(s, ps) == Run(s, StatsOnly(ps), None)
    decreases |ps|
  {
    if ps != [] {
      EnsureAllPresent(s, ps[1..]);
    }
  }

  /**
    Idempotence: after a run in which no `mkdir` raised, a second run on the
    same list (none of whose paths has a failing `stat`) issues no `mkdir`
    and leaves the server as it is.
   */
  lemma EnsureIdempotent(s: Server, ps: seq<string>)
    requires Ensure(s, ps).failedAt == None
    requires forall p | p in ps :: p !in s.unreadable
    ensures var r := Ensure(s, ps);
      Ensure(r.server, ps) == Run(r.server, StatsOnly(ps), None)
  {
    var r := Ensure(s, ps);
    EnsureEffect(s, ps);
    assert forall p | p in ps :: p in r.server.dirs && p !in r.server.unreadable;
    EnsureAllPresent(r.server, ps);
  }

  /** The calls of a run on which no path exists yet: `stat` then `mkdir`, path by path. */
  function StatsAndMkdirs(ps: seq<string>): (es: seq<Event>)
    ensures StatPaths(es) == ps && MkdirPaths(es) == ps
  {
    if ps == [] then [] else [Stat(ps[0]), Mkdir(ps[0])] + StatsAndMkdirs(ps[1..])
  }

  /**
    When no path of the list exists yet (and none is refused), the run
    issues `stat` then `mkdir` for each, in list order, and none raises.
   */
  lemma {:induction false} EnsureAllMissing(s: Server, ps: seq<string>)
    requires Distinct(ps)
    requires forall p | p in ps :: p !in s.dirs && p !in s.unreadable && p !in s.readOnly
    ensures Ensure(s, ps).events == StatsAndMkdirs(ps) && Ensure(s, ps).failedAt == None
    decreases |ps|
  {
    if ps != [] {
      var p := ps[0];
      var s' := s.(dirs := s.dirs + {p});
      assert Distinct(ps[1..]);
      assert p !in ps[1..];
      EnsureAllMissing(s', ps[1..]);
    }
  }

  /** `r` with the calls `es` issued before it. */
  function Prefixed(es: seq<Event>, r: Run): Run {
    r.(events := es + r.events)
  }

  lemma PrefixedAssoc(a: seq<Event>, b: seq<Event>, r: Run)
    ensures Prefixed(a, Prefixed(b, r)) == Prefixed(a + b, r)
  {
    assert a + (b + r.events) == (a + b) + r.events;
  }

  /** The loop of `ensure_remote_dir` after a path whose `mkdir` did not raise: the run so far extends by its calls. */
  lemma LoopStep(whole: Run, dirs: seq<string>, i: nat, done: seq<Event>, calls: seq<Event>, s0: Server, s1: Server)
    requires i < |dirs|
    requires whole == Prefixed(done, Ensure(s0, dirs[i..]))
    requires Ensure(s0, [dirs[i]] + dirs[i + 1..]) == Prefixed(calls, Ensure(s1, dirs[i + 1..]))
    ensures whole == Prefixed(done + calls, Ensure(s1, dirs[i + 1..]))
  {
    assert dirs[i..] == [dirs[i]] + dirs[i + 1..];
    PrefixedAssoc(done, calls, Ensure(s1, dirs[i + 1..]));
  }

  /** The loop of `ensure_remote_dir` at a path whose `mkdir` raised: the whole run ends there. */
  lemma LoopFail(whole: Run, dirs: seq<string>, i: nat, done: seq<Event>, calls: seq<Event>, s0: Server, s1: Server)
    requires i < |dirs|
    requires whole == Prefixed(done, Ensure(s0, dirs[i..]))
    requires Ensure(s0, [dirs[i]] + dirs[i + 1..]) == Run(s1, calls, Some(dirs[i]))
    ensures whole == Run(s1, done + calls, Some(dirs[i]))
  {
    assert dirs[i..] == [dirs[i]] + dirs[i + 1..];
  }

  /** One step of `Ensure`: the first path, then the rest of the list. */
  lemma EnsureStep(s: Server, ps: seq<string>)
    requires ps != []
    ensures StatOf(s, ps[0]) == Exists ==> Ensure(s, ps) == Prefixed([Stat(ps[0])], Ensure(s, ps[1..]))
    ensures StatOf(s, ps[0]) != Exists && MkdirAllowed(s, ps[0]) ==>
      Ensure(s, ps) == Prefixed([Stat(ps[0]), Mkdir(ps[0])], Ensure(s.(dirs := s.dirs + {ps[0]}), ps[1..]))
    ensures StatOf(s, ps[0]) != Exists && !MkdirAllowed(s, ps[0]) ==>
      Ensure(s, ps) == Run(s, [Stat(ps[0]), Mkdir(ps[0])], Some(ps[0]))
  {
  }

  /**
    The SFTP connection's view of the server: its state and the log of
    calls it has received.
   */
  class RemoteFs {
    var server: Server
    var log: seq<Event>

    constructor (s: Server)
      ensures server == s && log == []
    {
      server := s;
      log := [];
    }

    /** `sftp.stat(p)`. */
    method Stat(p: string) returns (r: StatResult)
      modifies this`log
      ensures r == StatOf(server, p)
      ensures log == old(log) + [Event.Stat(p)]
    {
      r := StatOf(server, p);
      log := log + [Event.Stat(p)];
    }

    /** `sftp.mkdir(p)`; `ok` is false when the call raises. */
    method Mkdir(p: string) returns (ok: bool)
      modifies this
      ensures ok == MkdirAllowed(old(server), p)
      ensures server == if ok then old(server).(dirs := old(server).dirs + {p}) else old(server)
      ensures log == old(log) + [Event.Mkdir(p)]
    {
      ok := MkdirAllowed(server, p);
      if ok {
        server := server.(dirs := server.dirs + {p});
      }
      log := log + [Event.Mkdir(p)];
    }

    /**
      The body of the loop of `ensure_remote_dir` for one path `p`: `stat`
      it, and `mkdir` it when the `stat` raises; `ok` is false when the
      `mkdir` raises. `calls` are the calls issued, `rest` the paths after `p`.
     */
    method EnsureOne(p: string, ghost rest: seq<string>) returns (ok: bool, ghost calls: seq<Event>)
      modifies this
      ensures log == old(log) + calls
      ensures ok ==> Ensure(old(server), [p] + rest) == Prefixed(calls, Ensure(server, rest))
      ensures !ok ==> Ensure(old(server), [p] + rest) == Run(server, calls, Some(p))
    {
      EnsureStep(server, [p] + rest);
      assert ([p] + rest)[0] == p && ([p] + rest)[1..] == rest;
      var st := Stat(p);
      if st == Exists {
        ok, calls := true, [Event.Stat(p)];
      } else {
        ok := Mkdir(p);
        calls := [Event.Stat(p), Event.Mkdir(p)];
      }
    }

    /**
      The second loop of `ensure_remote_dir`: over `dirs` in order, `stat`
      each path and `mkdir` it when the `stat` raises. `failed` names the
      path whose `mkdir` raised, which ends the loop.
     */
    method EnsureAll(dirs: seq<string>) returns (failed: Option<string>)
      modifies this
      ensures var r := Ensure(old(server), dirs);
        server == r.server && log == old(log) + r.events && failed == r.failedAt
    {
      ghost var whole := Ensure(server, dirs);
      ghost var done: seq<Event> := [];
      var i := 0;
      while i < |dirs|
        invariant 0 <= i <= |dirs|
        invariant log == old(log) + done
        invariant whole == Prefixed(done, Ensure(server, dirs[i..]))
      {
        ghost var s0 := server;
        ghost var d0 := done;
        var ok, calls := EnsureOne(dirs[i], dirs[i + 1..]);
        done := done + calls;
        if !ok {
          LoopFail(whole, dirs, i, d0, calls, s0, server);
          return Some(dirs[i]);
        }
        LoopStep(whole, dirs, i, d0, calls, s0, server);
        i := i + 1;
      }
      failed := None;
    }

    /**
      `ensure_remote_dir(sftp, remoteDir)`: collect `remoteDir` and its
      ancestors, shallowest first, then ensure each in turn.
     */
    method EnsureRemoteDir(remoteDir: string) returns (failed: Option<string>)
      modifies this
      ensures var r := Ensure(old(server), Ancestors(remoteDir));
        server == r.server && log == old(log) + r.events && failed == r.failedAt
    {
      var dirs := CollectDirs(remoteDir);
      failed := EnsureAll(dirs);
    }
  }
}
