/**
  What `deploy` leaves in the dependency records and the log: which
  dependencies get a deploy folder, which lines are logged, what happens to
  both when a copy fails, and what running the deployer twice does.
*/
module DeployRecords {
  import opened Wrappers
  import opened FileTree
  import opened MergedDeploy

  // ----- reference definitions -----

  /** The error line logged for a dependency without a package folder. */
  function SkipLine(d: Dep): seq<LogLine>
  {
    if d.package.None? then [ErrorLine(SkipMessage(d.ref))] else []
  }

  /** The skip lines of dependencies `lo` up to `hi`, in order. */
  function SkipLog(ds: seq<Dep>, lo: nat, hi: nat): seq<LogLine>
    requires hi <= |ds|
    decreases hi - lo
  {
    if lo >= hi then [] else SkipLine(ds[lo]) + SkipLog(ds, lo + 1, hi)
  }

  /** The deploy folders given to dependencies `lo` up to `hi` of context `c`:
      every one with a package folder gets the context folder. */
  function Assigned(c: Context, deps: seq<Dep>, lo: nat, hi: nat, env: Env): (m: map<DepId, string>)
    requires lo <= hi <= |deps|
    ensures forall id :: id in m <==> id.context == c && lo <= id.index < hi && deps[id.index].package.Some?
    ensures forall id :: id in m ==> m[id] == SubdirText(env, c)
  {
    map j: nat | lo <= j < hi && deps[j].package.Some? :: DepId(c, j) := SubdirText(env, c)
  }

  /** The deploy folders of a whole successful run. */
  function AllAssigned(g: Graph, env: Env): map<DepId, string>
  {
    Assigned(Build, g.build, 0, |g.build|, env) + Assigned(Host, g.host, 0, |g.host|, env)
  }

  /** The deploy folders given before dependency `j` of context `c` is reached. */
  function AssignedBefore(g: Graph, env: Env, c: Context, j: nat): map<DepId, string>
    requires j <= |DepsOf(g, c)|
  {
    match c
    case Build => Assigned(Build, g.build, 0, j, env)
    case Host => Assigned(Build, g.build, 0, |g.build|, env) + Assigned(Host, g.host, 0, j, env)
  }

  /** The skip lines logged before dependency `j` of context `c` is reached. */
  function SkipsBefore(g: Graph, c: Context, j: nat): seq<LogLine>
    requires j <= |DepsOf(g, c)|
  {
    match c
    case Build => SkipLog(g.build, 0, j)
    case Host => SkipLog(g.build, 0, |g.build|) + SkipLog(g.host, 0, j)
  }

  /** Neither copy of `dep` met a fault from the operating system. */
  predicate Unfaulted(dep: Dep, id: DepId, env: Env)
  {
    dep.package.Some? ==>
      env.osFault(MainMerge(id)).None?
      && ([LicencesDir] in dep.package.value ==> env.osFault(LicenceCopy(id)).None?)
  }

  /** `cause` is what the copies of `dep` raise on tree `t`, the tree the
      failing copy saw: the main merge's failure, or, when the main merge
      succeeds on `t`, the licence copy's failure. */
  ghost predicate RaisedBy(dep: Dep, id: DepId, env: Env, t: Tree, cause: Cause)
  {
    dep.package.Some?
    && match CopyTree(t, Directory(dep.package.value), [ContextName(id.context)], IgnoredNames, env.osFault(MainMerge(id)))
       case Failure(c) => c == cause
       case Success(_) =>
         LicenceSource(dep.package.value).Some?
         && CopyTree(t, LicenceSource(dep.package.value).value, LicenceDest(id.context, dep.ref), {}, env.osFault(LicenceCopy(id)))
            == Failure(cause)
  }

  /** The tree the failing copy saw determines the cause. */
  lemma RaisedByUnique(dep: Dep, id: DepId, env: Env, t: Tree, c1: Cause, c2: Cause)
    requires RaisedBy(dep, id, env, t, c1) && RaisedBy(dep, id, env, t, c2)
    ensures c1 == c2
  {
  }

  /** The cause raised is the main merge's fault if it has one, else the
      licence copy's fault; any other cause is a failure the copy detects
      in the trees themselves. */
  lemma RaisedByFaults(dep: Dep, id: DepId, env: Env, t: Tree, cause: Cause)
    requires RaisedBy(dep, id, env, t, cause)
    ensures env.osFault(MainMerge(id)).Some? ==> cause == OsError(env.osFault(MainMerge(id)).value)
    ensures env.osFault(MainMerge(id)).None? && cause.OsError? ==>
              [LicencesDir] in dep.package.value && env.osFault(LicenceCopy(id)) == Some(cause.text)
  {
    var pkg := dep.package.value;
    CopyTreeRaises(t, Directory(pkg), [ContextName(id.context)], IgnoredNames, env.osFault(MainMerge(id)));
    if LicenceSource(pkg).Some? {
      CopyTreeRaises(t, LicenceSource(pkg).value, LicenceDest(id.context, dep.ref), {}, env.osFault(LicenceCopy(id)));
    }
  }

  /** A fold over `deps[lo..]` stopped at dependency `j`: the folders and the
      log are those of `lo..j-1`, plus the privilege line of the cause, and
      the message is that cause's error for `deps[j]`; the cause is what
      the copies of `deps[j]` raised on the tree the fold stops with (the
      tree the failing copy saw), and no earlier copy met a fault. */
  ghost predicate StoppedAt(folders0: map<DepId, string>, log0: seq<LogLine>, r: Run, m: string,
                            c: Context, deps: seq<Dep>, lo: nat, j: nat, env: Env)
  {
    lo <= j < |deps| && deps[j].package.Some?
    && r.folders == folders0 + Assigned(c, deps, lo, j, env)
    && (forall k :: lo <= k < j ==> Unfaulted(deps[k], DepId(c, k), env))
    && exists cause :: r.log == log0 + SkipLog(deps, lo, j) + PrivilegeLog(cause)
                       && m == CopyErrorMessage(deps[j].ref, cause, SymlinksSetting(env.symlinksConf))
                       && RaisedBy(deps[j], DepId(c, j), env, r.tree, cause)
  }

  // ----- one dependency -----

  /** The main merge of `dep` fails with `cause`: the pass aborts there. */
  lemma MainFails(r: Run, id: DepId, dep: Dep, env: Env, cause: Cause)
    requires dep.package.Some?
    requires CopyTree(r.tree, Directory(dep.package.value), [ContextName(id.context)], IgnoredNames, env.osFault(MainMerge(id)))
             == Failure(cause)
    ensures MergeDep(r, id, dep, env)
            == Abort(r.(log := r.log + PrivilegeLog(cause)),
                     CopyErrorMessage(dep.ref, cause, SymlinksSetting(env.symlinksConf)))
  {
  }

  /** The main merge of `dep` gives `t`; the pass goes on with the licence
      step on `t`, whose abort is the pass's abort. */
  lemma MainPasses(r: Run, id: DepId, dep: Dep, env: Env, t: Tree)
    requires dep.package.Some?
    requires CopyTree(r.tree, Directory(dep.package.value), [ContextName(id.context)], IgnoredNames, env.osFault(MainMerge(id)))
             == Success(t)
    ensures LicenceStep(r.(tree := t), dep.package.value, id, dep, env).Abort? ==>
              MergeDep(r, id, dep, env) == LicenceStep(r.(tree := t), dep.package.value, id, dep, env)
    ensures LicenceStep(r.(tree := t), dep.package.value, id, dep, env).Continue? ==>
              var r2 := LicenceStep(r.(tree := t), dep.package.value, id, dep, env).run;
              MergeDep(r, id, dep, env) == Continue(r2.(folders := r2.folders[id := SubdirText(env, id.context)]))
  {
    assert GuardedCopy(r, Directory(dep.package.value), [ContextName(id.context)], IgnoredNames, dep, MainMerge(id), env)
           == Continue(r.(tree := t));
  }

  /** The licence step leaves the folders and the log alone when it goes on;
      when it aborts it logs the privilege line and raises the error of a
      failure of the licence copy. */
  lemma LicenceStepRecords(r: Run, pkg: Folder, id: DepId, dep: Dep, env: Env)
    ensures LicenceStep(r, pkg, id, dep, env).Continue? ==>
      LicenceStep(r, pkg, id, dep, env).run.folders == r.folders
      && LicenceStep(r, pkg, id, dep, env).run.log == r.log
      && ([LicencesDir] in pkg ==> env.osFault(LicenceCopy(id)).None?)
    ensures LicenceStep(r, pkg, id, dep, env).Abort? ==>
      [LicencesDir] in pkg && LicenceStep(r, pkg, id, dep, env).run.folders == r.folders
      && exists cause :: LicenceStep(r, pkg, id, dep, env).run.log == r.log + PrivilegeLog(cause)
                         && LicenceStep(r, pkg, id, dep, env).message
                            == CopyErrorMessage(dep.ref, cause, SymlinksSetting(env.symlinksConf))
                         && (cause.OsError? ==> env.osFault(LicenceCopy(id)) == Some(cause.text))
                         && LicenceStep(r, pkg, id, dep, env).run.tree == r.tree
                         && CopyTree(r.tree, LicenceSource(pkg).value, LicenceDest(id.context, dep.ref), {}, env.osFault(LicenceCopy(id)))
                            == Failure(cause)
  {
    match LicenceSource(pkg)
    case None =>
    case Some(src) =>
      var dst := LicenceDest(id.context, dep.ref);
      CopyTreeRaises(r.tree, src, dst, {}, env.osFault(LicenceCopy(id)));
      match CopyTree(r.tree, src, dst, {}, env.osFault(LicenceCopy(id)))
      case Success(t) =>
      case Failure(cause) =>
        assert LicenceStep(r, pkg, id, dep, env).run.log == r.log + PrivilegeLog(cause);
  }

  /** A completed pass logs the skip line or sets the deploy folder, and
      met no fault; a failing pass has a package, sets no folder, and logs
      the privilege line and raises the error of what its copies raised. */
  lemma MergeDepRecords(r: Run, id: DepId, dep: Dep, env: Env)
    ensures MergeDep(r, id, dep, env).Continue? ==>
      MergeDep(r, id, dep, env).run.log == r.log + SkipLine(dep)
      && MergeDep(r, id, dep, env).run.folders
         == (if dep.package.Some? then r.folders[id := SubdirText(env, id.context)] else r.folders)
      && Unfaulted(dep, id, env)
    ensures MergeDep(r, id, dep, env).Abort? ==>
      dep.package.Some? && MergeDep(r, id, dep, env).run.folders == r.folders
      && exists cause :: MergeDep(r, id, dep, env).run.log == r.log + PrivilegeLog(cause)
                         && MergeDep(r, id, dep, env).message
                            == CopyErrorMessage(dep.ref, cause, SymlinksSetting(env.symlinksConf))
                         && RaisedBy(dep, id, env, MergeDep(r, id, dep, env).run.tree, cause)
  {
    if dep.package.Some? {
      var pkg := dep.package.value;
      var dst := [ContextName(id.context)];
      CopyTreeRaises(r.tree, Directory(pkg), dst, IgnoredNames, env.osFault(MainMerge(id)));
      match CopyTree(r.tree, Directory(pkg), dst, IgnoredNames, env.osFault(MainMerge(id)))
      case Failure(cause) =>
        MainFails(r, id, dep, env, cause);
        assert RaisedBy(dep, id, env, r.tree, cause);
      case Success(t) =>
        MainPasses(r, id, dep, env, t);
        LicenceStepRecords(r.(tree := t), pkg, id, dep, env);
        if LicenceStep(r.(tree := t), pkg, id, dep, env).Abort? {
          var cause :| LicenceStep(r.(tree := t), pkg, id, dep, env).run.log == r.log + PrivilegeLog(cause)
                       && LicenceStep(r.(tree := t), pkg, id, dep, env).message
                          == CopyErrorMessage(dep.ref, cause, SymlinksSetting(env.symlinksConf))
                       && LicenceStep(r.(tree := t), pkg, id, dep, env).run.tree == t
                       && CopyTree(t, LicenceSource(pkg).value, LicenceDest(id.context, dep.ref), {}, env.osFault(LicenceCopy(id)))
                          == Failure(cause);
          CopyTreeAgain(r.tree, pkg, dst, IgnoredNames, env.osFault(MainMerge(id)), t);
          assert RaisedBy(dep, id, env, t, cause);
        }
    }
  }

  /** A dependency without a package folder is logged and passed over;
      the run goes on. */
  lemma SkipContinues(r: Run, id: DepId, dep: Dep, env: Env)
    requires dep.package.None?
    ensures MergeDep(r, id, dep, env) == Continue(r.(log := r.log + [ErrorLine(SkipMessage(dep.ref))]))
  {
  }

  /** A fault in the main merge aborts the pass with that fault as the
      cause: the privilege line if its text calls for it, and its error. */
  lemma MainFaultAborts(r: Run, id: DepId, dep: Dep, env: Env, s: string)
    requires dep.package.Some? && env.osFault(MainMerge(id)) == Some(s)
    ensures MergeDep(r, id, dep, env)
            == Abort(r.(log := r.log + PrivilegeLog(OsError(s))),
                     CopyErrorMessage(dep.ref, OsError(s), SymlinksSetting(env.symlinksConf)))
  {
    CopyTreeRaises(r.tree, Directory(dep.package.value), [ContextName(id.context)], IgnoredNames, Some(s));
    MainFails(r, id, dep, env, OsError(s));
  }

  /** After a successful main merge, a fault in the licence copy aborts the
      pass with that fault as the cause, keeping the merged tree. */
  lemma LicenceFaultAborts(r: Run, id: DepId, dep: Dep, env: Env, s: string, t: Tree)
    requires dep.package.Some? && [LicencesDir] in dep.package.value
    requires CopyTree(r.tree, Directory(dep.package.value), [ContextName(id.context)], IgnoredNames, env.osFault(MainMerge(id)))
             == Success(t)
    requires env.osFault(LicenceCopy(id)) == Some(s)
    ensures MergeDep(r, id, dep, env)
            == Abort(r.(tree := t, log := r.log + PrivilegeLog(OsError(s))),
                     CopyErrorMessage(dep.ref, OsError(s), SymlinksSetting(env.symlinksConf)))
  {
    var pkg := dep.package.value;
    var src := LicenceSource(pkg).value;
    CopyTreeRaises(t, src, LicenceDest(id.context, dep.ref), {}, Some(s));
    MainPasses(r, id, dep, env, t);
  }

  // ----- one context -----

  lemma AssignedFirst(c: Context, deps: seq<Dep>, i: nat, hi: nat, env: Env)
    requires i < hi <= |deps|
    ensures DepId(c, i) !in Assigned(c, deps, i + 1, hi, env)
    ensures Assigned(c, deps, i, hi, env)
            == if deps[i].package.Some? then Assigned(c, deps, i + 1, hi, env)[DepId(c, i) := SubdirText(env, c)]
               else Assigned(c, deps, i + 1, hi, env)
  {
  }

  lemma UpdateThenUnion(m: map<DepId, string>, n: map<DepId, string>, k: DepId, v: string)
    requires k !in n
    ensures m[k := v] + n == m + n[k := v]
  {
    var left := m[k := v] + n;
    var right := m + n[k := v];
    assert left.Keys == right.Keys;
    assert forall id | id in left :: left[id] == right[id];
  }

  lemma AssignedStep(c: Context, deps: seq<Dep>, i: nat, hi: nat, env: Env, folders: map<DepId, string>)
    requires i < hi <= |deps|
    ensures (if deps[i].package.Some? then folders[DepId(c, i) := SubdirText(env, c)] else folders)
            + Assigned(c, deps, i + 1, hi, env)
            == folders + Assigned(c, deps, i, hi, env)
  {
    AssignedFirst(c, deps, i, hi, env);
    if deps[i].package.Some? {
      UpdateThenUnion(folders, Assigned(c, deps, i + 1, hi, env), DepId(c, i), SubdirText(env, c));
    }
  }

  /** The folders and log after dependency `i`, from those before it. */
  ghost predicate StepRecords(r: Run, r1: Run, c: Context, deps: seq<Dep>, i: nat, env: Env)
    requires i < |deps|
  {
    r1.log == r.log + SkipLine(deps[i])
    && r1.folders == (if deps[i].package.Some? then r.folders[DepId(c, i) := SubdirText(env, c)] else r.folders)
    && Unfaulted(deps[i], DepId(c, i), env)
  }

  lemma StopHere(r: Run, r1: Run, m: string, c: Context, deps: seq<Dep>, i: nat, env: Env, cause: Cause)
    requires i < |deps| && deps[i].package.Some? && r1.folders == r.folders
    requires r1.log == r.log + PrivilegeLog(cause)
    requires m == CopyErrorMessage(deps[i].ref, cause, SymlinksSetting(env.symlinksConf))
    requires RaisedBy(deps[i], DepId(c, i), env, r1.tree, cause)
    ensures StoppedAt(r.folders, r.log, r1, m, c, deps, i, i, env)
  {
    NothingAssigned(c, deps, i, env, r.folders);
    NothingSkipped(deps, i, r.log, r1.log, PrivilegeLog(cause));
    StoppedAtIntro(r.folders, r.log, r1, m, c, deps, i, i, env, cause);
  }

  lemma NothingSkipped(deps: seq<Dep>, i: nat, log: seq<LogLine>, log1: seq<LogLine>, extra: seq<LogLine>)
    requires i <= |deps| && log1 == log + extra
    ensures log1 == log + SkipLog(deps, i, i) + extra
  {
    assert SkipLog(deps, i, i) == [];
  }

  lemma StoppedAtIntro(folders0: map<DepId, string>, log0: seq<LogLine>, r: Run, m: string,
                       c: Context, deps: seq<Dep>, lo: nat, j: nat, env: Env, cause: Cause)
    requires lo <= j < |deps| && deps[j].package.Some?
    requires r.folders == folders0 + Assigned(c, deps, lo, j, env)
    requires forall k :: lo <= k < j ==> Unfaulted(deps[k], DepId(c, k), env)
    requires r.log == log0 + SkipLog(deps, lo, j) + PrivilegeLog(cause)
    requires m == CopyErrorMessage(deps[j].ref, cause, SymlinksSetting(env.symlinksConf))
    requires RaisedBy(deps[j], DepId(c, j), env, r.tree, cause)
    ensures StoppedAt(folders0, log0, r, m, c, deps, lo, j, env)
  {
  }

  lemma NothingAssigned(c: Context, deps: seq<Dep>, i: nat, env: Env, folders: map<DepId, string>)
    requires i <= |deps|
    ensures folders + Assigned(c, deps, i, i, env) == folders
  {
    assert Assigned(c, deps, i, i, env) == map[];
  }

  lemma StopLater(r: Run, r1: Run, r2: Run, m: string, c: Context, deps: seq<Dep>, i: nat, j: nat, env: Env)
    requires i < |deps| && StepRecords(r, r1, c, deps, i, env)
    requires StoppedAt(r1.folders, r1.log, r2, m, c, deps, i + 1, j, env)
    ensures StoppedAt(r.folders, r.log, r2, m, c, deps, i, j, env)
  {
    AssignedStep(c, deps, i, j, env, r.folders);
    var cause :| r2.log == r1.log + SkipLog(deps, i + 1, j) + PrivilegeLog(cause)
                 && m == CopyErrorMessage(deps[j].ref, cause, SymlinksSetting(env.symlinksConf))
                 && RaisedBy(deps[j], DepId(c, j), env, r2.tree, cause);
    calc {
      r2.log;
      r1.log + SkipLog(deps, i + 1, j) + PrivilegeLog(cause);
      r.log + SkipLine(deps[i]) + SkipLog(deps, i + 1, j) + PrivilegeLog(cause);
      { SeqAssoc(r.log, SkipLine(deps[i]), SkipLog(deps, i + 1, j), PrivilegeLog(cause)); }
      r.log + (SkipLine(deps[i]) + SkipLog(deps, i + 1, j)) + PrivilegeLog(cause);
      r.log + SkipLog(deps, i, j) + PrivilegeLog(cause);
    }
  }

  lemma SeqAssoc3<T>(a: seq<T>, b: seq<T>, c: seq<T>)
    ensures a + b + c == a + (b + c)
  {
  }

  lemma SeqAssoc<T>(a: seq<T>, b: seq<T>, c: seq<T>, d: seq<T>)
    ensures a + b + c + d == a + (b + c) + d
  {
  }

  lemma PassOn(r: Run, r1: Run, r2: Run, c: Context, deps: seq<Dep>, i: nat, env: Env)
    requires i < |deps| && StepRecords(r, r1, c, deps, i, env)
    requires r2.folders == r1.folders + Assigned(c, deps, i + 1, |deps|, env)
    requires r2.log == r1.log + SkipLog(deps, i + 1, |deps|)
    requires forall k :: i + 1 <= k < |deps| ==> Unfaulted(deps[k], DepId(c, k), env)
    ensures r2.folders == r.folders + Assigned(c, deps, i, |deps|, env)
    ensures r2.log == r.log + SkipLog(deps, i, |deps|)
    ensures forall k :: i <= k < |deps| ==> Unfaulted(deps[k], DepId(c, k), env)
  {
    assert r1.folders == (if deps[i].package.Some? then r.folders[DepId(c, i) := SubdirText(env, c)] else r.folders);
    AssignedStep(c, deps, i, |deps|, env, r.folders);
    assert r1.log == r.log + SkipLine(deps[i]);
    SeqAssoc3(r.log, SkipLine(deps[i]), SkipLog(deps, i + 1, |deps|));
    UnfaultedFrom(c, deps, i, env);
  }

  lemma UnfaultedFrom(c: Context, deps: seq<Dep>, i: nat, env: Env)
    requires i < |deps| && Unfaulted(deps[i], DepId(c, i), env)
    requires forall k :: i + 1 <= k < |deps| ==> Unfaulted(deps[k], DepId(c, k), env)
    ensures forall k :: i <= k < |deps| ==> Unfaulted(deps[k], DepId(c, k), env)
  {
  }

  /** The inner loop from dependency `i` on: a full pass sets the folders of
      all dependencies with a package and logs the skip lines; a failing
      pass stops at the dependency whose copy failed. */
  lemma {:induction false} MergeContextRecords(r: Run, c: Context, deps: seq<Dep>, i: nat, env: Env)
    requires i <= |deps|
    ensures MergeContext(r, c, deps, i, env).Continue? ==>
      MergeContext(r, c, deps, i, env).run.folders == r.folders + Assigned(c, deps, i, |deps|, env)
      && MergeContext(r, c, deps, i, env).run.log == r.log + SkipLog(deps, i, |deps|)
      && forall k :: i <= k < |deps| ==> Unfaulted(deps[k], DepId(c, k), env)
    ensures MergeContext(r, c, deps, i, env).Abort? ==>
      exists j: nat :: StoppedAt(r.folders, r.log, MergeContext(r, c, deps, i, env).run,
                                 MergeContext(r, c, deps, i, env).message, c, deps, i, j, env)
    decreases |deps| - i
  {
    if i == |deps| {
      assert r.folders + Assigned(c, deps, i, |deps|, env) == r.folders;
    } else {
      var id := DepId(c, i);
      MergeDepRecords(r, id, deps[i], env);
      match MergeDep(r, id, deps[i], env)
      case Abort(r1, m) =>
        var cause :| r1.log == r.log + PrivilegeLog(cause)
                     && m == CopyErrorMessage(deps[i].ref, cause, SymlinksSetting(env.symlinksConf))
                     && RaisedBy(deps[i], id, env, r1.tree, cause);
        StopHere(r, r1, m, c, deps, i, env, cause);
      case Continue(r1) =>
        assert StepRecords(r, r1, c, deps, i, env);
        MergeContextRecords(r1, c, deps, i + 1, env);
        assert MergeContext(r, c, deps, i, env) == MergeContext(r1, c, deps, i + 1, env);
        match MergeContext(r1, c, deps, i + 1, env)
        case Continue(r2) =>
          PassOn(r, r1, r2, c, deps, i, env);
        case Abort(r2, m) =>
          var j: nat :| StoppedAt(r1.folders, r1.log, r2, m, c, deps, i + 1, j, env);
          StopLater(r, r1, r2, m, c, deps, i, j, env);
    }
  }

  // ----- the whole deployment -----

  lemma UnionAssoc(a: map<DepId, string>, b: map<DepId, string>, c: map<DepId, string>)
    ensures a + b + c == a + (b + c)
  {
    var left := a + b + c;
    var right := a + (b + c);
    assert left.Keys == right.Keys;
    assert forall id | id in left :: left[id] == right[id];
  }

  /** Dependency `id` exists in the graph and has a package folder. */
  predicate HasPackage(g: Graph, id: DepId)
  {
    id.index < |DepsOf(g, id.context)| && DepsOf(g, id.context)[id.index].package.Some?
  }

  /** `id` is reached before dependency `j` of context `c`. */
  predicate Precedes(id: DepId, c: Context, j: nat)
  {
    (id.context == Build && c == Host) || (id.context == c && id.index < j)
  }

  /** The deployment stopped at dependency `j` of context `c`: that one has a
      package, the deploy folders are those of every dependency reached
      before it, the log holds the skip lines before it and possibly the
      privilege line, and the message is the error for its copy. */
  ghost predicate FailedAt(g: Graph, env: Env, folders: map<DepId, string>, log: seq<LogLine>, c: Context, j: nat)
  {
    FailedWith(g, env, folders, log, DeployResult(g, env, folders, log), c, j)
  }

  /** `d` is the deployment that stops at dependency `j` of context `c`. */
  ghost predicate FailedWith(g: Graph, env: Env, folders: map<DepId, string>, log: seq<LogLine>, d: Deployment, c: Context, j: nat)
  {
    j < |DepsOf(g, c)| && DepsOf(g, c)[j].package.Some?
    && d.run.folders == folders + AssignedBefore(g, env, c, j)
    && UnfaultedBefore(g, env, c, j)
    && exists cause :: d.run.log == log + SkipsBefore(g, c, j) + PrivilegeLog(cause)
                       && d.outcome == Aborted(CopyErrorMessage(DepsOf(g, c)[j].ref, cause, SymlinksSetting(env.symlinksConf)))
                       && RaisedBy(DepsOf(g, c)[j], DepId(c, j), env, d.run.tree, cause)
  }

  /** No copy of a dependency reached before dependency `j` of context `c`
      met a fault. */
  ghost predicate UnfaultedBefore(g: Graph, env: Env, c: Context, j: nat)
  {
    forall id :: Precedes(id, c, j) && id.index < |DepsOf(g, id.context)| ==> Unfaulted(DepsOf(g, id.context)[id.index], id, env)
  }

  lemma UnfaultedContext(g: Graph, env: Env, c: Context, j: nat)
    requires j <= |DepsOf(g, c)|
    requires forall k :: 0 <= k < j ==> Unfaulted(DepsOf(g, c)[k], DepId(c, k), env)
    requires c == Host ==> forall k :: 0 <= k < |g.build| ==> Unfaulted(g.build[k], DepId(Build, k), env)
    ensures UnfaultedBefore(g, env, c, j)
  {
    forall id | Precedes(id, c, j) && id.index < |DepsOf(g, id.context)|
      ensures Unfaulted(DepsOf(g, id.context)[id.index], id, env)
    {
      assert id == DepId(id.context, id.index);
    }
  }

  lemma StoppedInBuild(g: Graph, env: Env, folders: map<DepId, string>, log: seq<LogLine>, r: Run, m: string, j: nat)
    requires DeployResult(g, env, folders, log) == Deployment(r, Aborted(m))
    requires StoppedAt(folders, log, r, m, Build, g.build, 0, j, env)
    ensures FailedAt(g, env, folders, log, Build, j)
  {
    UnfaultedContext(g, env, Build, j);
  }

  lemma StoppedInHost(g: Graph, env: Env, folders: map<DepId, string>, log: seq<LogLine>, r: Run, m: string, j: nat)
    requires DeployResult(g, env, folders, log) == Deployment(r, Aborted(m))
    requires StoppedAt(folders + Assigned(Build, g.build, 0, |g.build|, env), log + SkipLog(g.build, 0, |g.build|), r, m, Host, g.host, 0, j, env)
    requires forall k :: 0 <= k < |g.build| ==> Unfaulted(g.build[k], DepId(Build, k), env)
    ensures FailedAt(g, env, folders, log, Host, j)
  {
    HostStop(g, env, folders, log, r, m, j);
  }

  lemma HostStop(g: Graph, env: Env, folders: map<DepId, string>, log: seq<LogLine>, r: Run, m: string, j: nat)
    requires StoppedAt(folders + Assigned(Build, g.build, 0, |g.build|, env), log + SkipLog(g.build, 0, |g.build|), r, m, Host, g.host, 0, j, env)
    requires forall k :: 0 <= k < |g.build| ==> Unfaulted(g.build[k], DepId(Build, k), env)
    ensures FailedWith(g, env, folders, log, Deployment(r, Aborted(m)), Host, j)
  {
    UnionAssoc(folders, Assigned(Build, g.build, 0, |g.build|, env), Assigned(Host, g.host, 0, j, env));
    assert r.folders == folders + AssignedBefore(g, env, Host, j);
    UnfaultedContext(g, env, Host, j);
    var cause :| r.log == log + SkipLog(g.build, 0, |g.build|) + SkipLog(g.host, 0, j) + PrivilegeLog(cause)
                 && m == CopyErrorMessage(g.host[j].ref, cause, SymlinksSetting(env.symlinksConf))
                 && RaisedBy(g.host[j], DepId(Host, j), env, r.tree, cause);
    HostLog(log, g, j, r.log, cause);
  }

  lemma HostLog(log: seq<LogLine>, g: Graph, j: nat, rlog: seq<LogLine>, cause: Cause)
    requires j <= |g.host|
    requires rlog == log + SkipLog(g.build, 0, |g.build|) + SkipLog(g.host, 0, j) + PrivilegeLog(cause)
    ensures rlog == log + SkipsBefore(g, Host, j) + PrivilegeLog(cause)
  {
    SeqAssoc(log, SkipLog(g.build, 0, |g.build|), SkipLog(g.host, 0, j), PrivilegeLog(cause));
  }

  /** A full run sets the deploy folder of every dependency with a package
      and logs, in order, the skip lines of build then host and then the
      success line. */
  lemma DeployedRecords(g: Graph, env: Env, folders: map<DepId, string>, log: seq<LogLine>)
    requires DeployResult(g, env, folders, log).outcome == Deployed
    ensures DeployResult(g, env, folders, log).run.folders == folders + AllAssigned(g, env)
    ensures DeployResult(g, env, folders, log).run.log
            == log + SkipLog(g.build, 0, |g.build|) + SkipLog(g.host, 0, |g.host|) + [SuccessLine(SuccessMessage(env))]
  {
    var r0 := Run(map[], folders, log);
    MergeContextRecords(EnterContext(r0, Build), Build, g.build, 0, env);
    var r1 := MergeContext(EnterContext(r0, Build), Build, g.build, 0, env).run;
    MergeContextRecords(EnterContext(r1, Host), Host, g.host, 0, env);
    UnionAssoc(folders, Assigned(Build, g.build, 0, |g.build|, env), Assigned(Host, g.host, 0, |g.host|, env));
  }

  /** A run that raises stops at the first dependency whose copy fails. */
  lemma AbortedRecords(g: Graph, env: Env, folders: map<DepId, string>, log: seq<LogLine>)
    requires DeployResult(g, env, folders, log).outcome.Aborted?
    ensures exists c: Context, j: nat :: FailedAt(g, env, folders, log, c, j)
  {
    var d := DeployResult(g, env, folders, log);
    var r0 := Run(map[], folders, log);
    MergeContextRecords(EnterContext(r0, Build), Build, g.build, 0, env);
    match MergeContext(EnterContext(r0, Build), Build, g.build, 0, env)
    case Abort(r1, m) =>
      var j: nat :| StoppedAt(folders, log, r1, m, Build, g.build, 0, j, env);
      StoppedInBuild(g, env, folders, log, r1, m, j);
    case Continue(r1) =>
      MergeContextRecords(EnterContext(r1, Host), Host, g.host, 0, env);
      match MergeContext(EnterContext(r1, Host), Host, g.host, 0, env)
      case Abort(r2, m) =>
        var j: nat :| StoppedAt(r1.folders, r1.log, r2, m, Host, g.host, 0, j, env);
        StoppedInHost(g, env, folders, log, r2, m, j);
      case Continue(r2) =>
        assert false;
  }

  // ----- consequences -----

  lemma {:induction false} SkipLogNames(ds: seq<Dep>, lo: nat, hi: nat, j: nat)
    requires lo <= j < hi <= |ds| && ds[j].package.None?
    ensures ErrorLine(SkipMessage(ds[j].ref)) in SkipLog(ds, lo, hi)
    decreases j - lo
  {
    if lo < j {
      SkipLogNames(ds, lo + 1, hi, j);
    }
  }

  /** Every line of `s` is at error level. */
  predicate ErrorsOnly(s: seq<LogLine>)
  {
    forall k :: 0 <= k < |s| ==> s[k].ErrorLine?
  }

  lemma ErrorsOnlyAppend(a: seq<LogLine>, b: seq<LogLine>)
    requires ErrorsOnly(a) && ErrorsOnly(b)
    ensures ErrorsOnly(a + b)
  {
    assert forall k :: |a| <= k < |a + b| ==> (a + b)[k] == b[k - |a|];
  }

  lemma {:induction false} SkipLogErrorsOnly(ds: seq<Dep>, lo: nat, hi: nat)
    requires hi <= |ds|
    ensures ErrorsOnly(SkipLog(ds, lo, hi))
    decreases hi - lo
  {
    if lo < hi {
      SkipLogErrorsOnly(ds, lo + 1, hi);
      ErrorsOnlyAppend(SkipLine(ds[lo]), SkipLog(ds, lo + 1, hi));
    }
  }

  lemma SkipsBeforeErrorsOnly(g: Graph, c: Context, j: nat, cause: Cause)
    requires j <= |DepsOf(g, c)|
    ensures ErrorsOnly(SkipsBefore(g, c, j) + PrivilegeLog(cause))
  {
    SkipLogErrorsOnly(DepsOf(g, c), 0, j);
    if c == Host {
      SkipLogErrorsOnly(g.build, 0, |g.build|);
      ErrorsOnlyAppend(SkipLog(g.build, 0, |g.build|), SkipLog(g.host, 0, j));
    }
    ErrorsOnlyAppend(SkipsBefore(g, c, j), PrivilegeLog(cause));
  }

  /** After a full run, exactly the dependencies with a package folder have
      their deploy folder set, each to its context folder under
      `merged_deploy`; records of other dependencies are left as they were. */
  lemma DeployFoldersSet(g: Graph, env: Env, folders: map<DepId, string>, log: seq<LogLine>, id: DepId)
    requires DeployResult(g, env, folders, log).outcome == Deployed
    ensures id in DeployResult(g, env, folders, log).run.folders <==> id in folders || HasPackage(g, id)
    ensures HasPackage(g, id) ==> DeployResult(g, env, folders, log).run.folders[id] == SubdirText(env, id.context)
    ensures !HasPackage(g, id) && id in folders ==> DeployResult(g, env, folders, log).run.folders[id] == folders[id]
  {
    DeployedRecords(g, env, folders, log);
  }

  /** In a run that completes, a dependency without a package folder is
      reported by name and gets no deploy folder. That such a dependency
      never stops a pass is `SkipContinues`. */
  lemma SkippedDependency(g: Graph, env: Env, folders: map<DepId, string>, log: seq<LogLine>, c: Context, j: nat)
    requires j < |DepsOf(g, c)| && DepsOf(g, c)[j].package.None?
    requires DeployResult(g, env, folders, log).outcome == Deployed
    ensures ErrorLine(SkipMessage(DepsOf(g, c)[j].ref)) in DeployResult(g, env, folders, log).run.log
    ensures DepId(c, j) in DeployResult(g, env, folders, log).run.folders <==> DepId(c, j) in folders
  {
    DeployedRecords(g, env, folders, log);
    SkipLogNames(DepsOf(g, c), 0, |DepsOf(g, c)|, j);
  }

  /** The deploy folders after a run that stopped at dependency `j` of
      context `c`: set for exactly the dependencies with a package reached
      before it, not for it and not for any later one. */
  ghost predicate FoldersUpTo(g: Graph, env: Env, before: map<DepId, string>, after: map<DepId, string>, c: Context, j: nat)
  {
    forall id :: id in after <==> id in before || (HasPackage(g, id) && Precedes(id, c, j))
  }

  lemma FailedFolders(g: Graph, env: Env, folders: map<DepId, string>, log: seq<LogLine>, c: Context, j: nat)
    requires FailedAt(g, env, folders, log, c, j)
    ensures FoldersUpTo(g, env, folders, DeployResult(g, env, folders, log).run.folders, c, j)
  {
  }

  lemma NoSuccessAdded(log: seq<LogLine>, added: seq<LogLine>)
    requires ErrorsOnly(added)
    ensures log <= log + added
    ensures forall k :: |log| <= k < |log + added| ==> !(log + added)[k].SuccessLine?
  {
    assert forall k :: |log| <= k < |log + added| ==> (log + added)[k] == added[k - |log|];
  }

  lemma FailedLog(g: Graph, env: Env, folders: map<DepId, string>, log: seq<LogLine>, c: Context, j: nat)
    requires FailedAt(g, env, folders, log, c, j)
    ensures log <= DeployResult(g, env, folders, log).run.log
    ensures forall k :: |log| <= k < |DeployResult(g, env, folders, log).run.log| ==>
      !DeployResult(g, env, folders, log).run.log[k].SuccessLine?
  {
    var cause :| DeployResult(g, env, folders, log).run.log == log + SkipsBefore(g, c, j) + PrivilegeLog(cause);
    SkipsBeforeErrorsOnly(g, c, j, cause);
    SeqAssoc3(log, SkipsBefore(g, c, j), PrivilegeLog(cause));
    NoSuccessAdded(log, SkipsBefore(g, c, j) + PrivilegeLog(cause));
  }

  /** When a copy fails, the run stops at that dependency: no later
      dependency and not the failing one gets a deploy folder, and the
      success line is never logged. */
  lemma AbortStopsDeployment(g: Graph, env: Env, folders: map<DepId, string>, log: seq<LogLine>)
    requires DeployResult(g, env, folders, log).outcome.Aborted?
    ensures exists c: Context, j: nat ::
      j < |DepsOf(g, c)| && DepsOf(g, c)[j].package.Some?
      && FoldersUpTo(g, env, folders, DeployResult(g, env, folders, log).run.folders, c, j)
    ensures log <= DeployResult(g, env, folders, log).run.log
    ensures forall k :: |log| <= k < |DeployResult(g, env, folders, log).run.log| ==>
      !DeployResult(g, env, folders, log).run.log[k].SuccessLine?
  {
    AbortedRecords(g, env, folders, log);
    var c: Context, j: nat :| FailedAt(g, env, folders, log, c, j);
    FailedFolders(g, env, folders, log, c, j);
    FailedLog(g, env, folders, log, c, j);
  }

  /** In a full run no copy met a fault. */
  lemma DeployedUnfaulted(g: Graph, env: Env, folders: map<DepId, string>, log: seq<LogLine>)
    requires DeployResult(g, env, folders, log).outcome == Deployed
    ensures forall id: DepId :: id.index < |DepsOf(g, id.context)| ==> Unfaulted(DepsOf(g, id.context)[id.index], id, env)
  {
    var r0 := Run(map[], folders, log);
    MergeContextRecords(EnterContext(r0, Build), Build, g.build, 0, env);
    var r1 := MergeContext(EnterContext(r0, Build), Build, g.build, 0, env).run;
    MergeContextRecords(EnterContext(r1, Host), Host, g.host, 0, env);
    forall id: DepId | id.index < |DepsOf(g, id.context)|
      ensures Unfaulted(DepsOf(g, id.context)[id.index], id, env)
    {
      assert id == DepId(id.context, id.index);
    }
  }

  /** A fault in a copy of a dependency with a package aborts the whole
      deployment, at that dependency or at an earlier one. */
  lemma FaultStopsDeployment(g: Graph, env: Env, folders: map<DepId, string>, log: seq<LogLine>, id: DepId)
    requires id.index < |DepsOf(g, id.context)| && !Unfaulted(DepsOf(g, id.context)[id.index], id, env)
    ensures DeployResult(g, env, folders, log).outcome.Aborted?
    ensures exists c: Context, j: nat :: FailedAt(g, env, folders, log, c, j) && !Precedes(id, c, j)
  {
    if DeployResult(g, env, folders, log).outcome == Deployed {
      DeployedUnfaulted(g, env, folders, log);
      assert false;
    }
    AbortedRecords(g, env, folders, log);
    var c: Context, j: nat :| FailedAt(g, env, folders, log, c, j);
    assert !Precedes(id, c, j);
  }

  // ----- running the deployer again -----

  /** A state with `folders` and `log` put in front of its own. */
  function Offset(r: Run, folders: map<DepId, string>, log: seq<LogLine>): Run
  {
    r.(folders := folders + r.folders, log := log + r.log)
  }

  function OffsetStep(s: Step, folders: map<DepId, string>, log: seq<LogLine>): Step
  {
    match s
    case Continue(r) => Continue(Offset(r, folders, log))
    case Abort(r, m) => Abort(Offset(r, folders, log), m)
  }

  lemma GuardedCopyOffset(r: Run, src: Source, dst: Path, ignored: set<Name>, dep: Dep, call: CopyCall, env: Env,
                          folders: map<DepId, string>, log: seq<LogLine>)
    ensures GuardedCopy(Offset(r, folders, log), src, dst, ignored, dep, call, env)
            == OffsetStep(GuardedCopy(r, src, dst, ignored, dep, call, env), folders, log)
  {
    var res := CopyTree(r.tree, src, dst, ignored, env.osFault(call));
    assert Offset(r, folders, log).tree == r.tree;
    if res.Failure? {
      SeqAssoc3(log, r.log, PrivilegeLog(res.error));
    }
  }

  lemma UpdateOffset(m: map<DepId, string>, folders: map<DepId, string>, id: DepId, v: string)
    ensures (folders + m)[id := v] == folders + m[id := v]
  {
    var left := (folders + m)[id := v];
    var right := folders + m[id := v];
    assert left.Keys == right.Keys;
    assert forall k | k in left :: left[k] == right[k];
  }

  lemma MergeDepOffset(r: Run, id: DepId, dep: Dep, env: Env, folders: map<DepId, string>, log: seq<LogLine>)
    ensures MergeDep(Offset(r, folders, log), id, dep, env) == OffsetStep(MergeDep(r, id, dep, env), folders, log)
  {
    match dep.package
    case None =>
      assert log + r.log + [ErrorLine(SkipMessage(dep.ref))] == log + (r.log + [ErrorLine(SkipMessage(dep.ref))]);
    case Some(pkg) =>
      GuardedCopyOffset(r, Directory(pkg), [ContextName(id.context)], IgnoredNames, dep, MainMerge(id), env, folders, log);
      match GuardedCopy(r, Directory(pkg), [ContextName(id.context)], IgnoredNames, dep, MainMerge(id), env)
      case Abort(_, _) =>
      case Continue(r1) =>
        match LicenceSource(pkg)
        case None =>
          UpdateOffset(r1.folders, folders, id, SubdirText(env, id.context));
        case Some(src) =>
          GuardedCopyOffset(r1, src, LicenceDest(id.context, dep.ref), {}, dep, LicenceCopy(id), env, folders, log);
          match GuardedCopy(r1, src, LicenceDest(id.context, dep.ref), {}, dep, LicenceCopy(id), env)
          case Abort(_, _) =>
          case Continue(r2) =>
            UpdateOffset(r2.folders, folders, id, SubdirText(env, id.context));
  }

  /** The inner loop does not look at the folders and log it starts with:
      starting from more only puts that in front of what it leaves. */
  lemma {:induction false} MergeContextOffset(r: Run, c: Context, deps: seq<Dep>, i: nat, env: Env,
                                              folders: map<DepId, string>, log: seq<LogLine>)
    ensures MergeContext(Offset(r, folders, log), c, deps, i, env) == OffsetStep(MergeContext(r, c, deps, i, env), folders, log)
    decreases |deps| - i
  {
    if i < |deps| {
      MergeDepOffset(r, DepId(c, i), deps[i], env, folders, log);
      match MergeDep(r, DepId(c, i), deps[i], env)
      case Abort(_, _) =>
      case Continue(r1) => MergeContextOffset(r1, c, deps, i + 1, env, folders, log);
    }
  }

  lemma {:induction false} MergeContextsOffset(r: Run, g: Graph, env: Env, k: nat,
                                               folders: map<DepId, string>, log: seq<LogLine>)
    ensures MergeContexts(Offset(r, folders, log), g, env, k) == OffsetStep(MergeContexts(r, g, env, k), folders, log)
    decreases |Contexts| - k
  {
    if k < |Contexts| {
      var c := Contexts[k];
      assert EnterContext(Offset(r, folders, log), c) == Offset(EnterContext(r, c), folders, log);
      MergeContextOffset(EnterContext(r, c), c, DepsOf(g, c), 0, env, folders, log);
      match MergeContext(EnterContext(r, c), c, DepsOf(g, c), 0, env)
      case Abort(_, _) =>
      case Continue(r1) => MergeContextsOffset(r1, g, env, k + 1, folders, log);
    }
  }

  /** What a deployment does from given records is what it does from none,
      with those records in front. */
  lemma DeployOffset(g: Graph, env: Env, folders: map<DepId, string>, log: seq<LogLine>)
    ensures DeployResult(g, env, folders, log).run
            == Offset(DeployResult(g, env, map[], []).run, folders, log)
    ensures DeployResult(g, env, folders, log).outcome == DeployResult(g, env, map[], []).outcome
  {
    var empty := Run(map[], map[], []);
    assert Run(map[], folders, log) == Offset(empty, folders, log);
    MergeContextsOffset(empty, g, env, 0, folders, log);
  }

  /** Running `deploy` a second time gives the same tree, the same outcome
      and the same deploy folders, and logs the same lines again. */
  lemma DeployTwice(g: Graph, env: Env, folders: map<DepId, string>, log: seq<LogLine>)
    ensures var first := DeployResult(g, env, folders, log);
            var second := DeployResult(g, env, first.run.folders, first.run.log);
            second.run.tree == first.run.tree
            && second.outcome == first.outcome
            && second.run.folders == first.run.folders
            && second.run.log == first.run.log + DeployResult(g, env, map[], []).run.log
  {
    var first := DeployResult(g, env, folders, log);
    var base := DeployResult(g, env, map[], []).run;
    DeployOffset(g, env, folders, log);
    DeployOffset(g, env, first.run.folders, first.run.log);
    var twice := first.run.folders + base.folders;
    assert twice.Keys == first.run.folders.Keys;
    assert forall id | id in twice :: twice[id] == first.run.folders[id];
  }

  /** The tree and the outcome depend only on the graph and the environment,
      not on anything recorded before. */
  lemma DeployIgnoresHistory(g: Graph, env: Env, f1: map<DepId, string>, l1: seq<LogLine>,
                             f2: map<DepId, string>, l2: seq<LogLine>)
    ensures DeployResult(g, env, f1, l1).run.tree == DeployResult(g, env, f2, l2).run.tree
    ensures DeployResult(g, env, f1, l1).outcome == DeployResult(g, env, f2, l2).outcome
  {
    DeployOffset(g, env, f1, l1);
    DeployOffset(g, env, f2, l2);
  }
}
