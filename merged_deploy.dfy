/**
  The merged deployer of cmake/merged_deploy.py: it wipes
  `<output>/merged_deploy`, merges every dependency's package folder into
  `merged_deploy/<context>/` (build first, then host) leaving out licence
  folders and package metadata, copies each dependency's licences to
  `<context>/licenses/<name>/`, records the context folder as the
  dependency's deploy folder, and aborts on the first failing copy.
 */
module MergedDeploy {
  import opened Wrappers
  import opened FileTree

  datatype Context = Build | Host

  /** The two contexts, in the order the deployer visits them. */
  const Contexts: seq<Context> := [Build, Host]

  function ContextName(c: Context): (r: string)
    ensures r == "build" || r == "host"
  {
    match c
    case Build => "build"
    case Host => "host"
  }

  /** A package reference: the bare package name and its printed form. */
  datatype Ref = Ref(name: string, display: string)

  /** A resolved dependency: its reference and its package folder, absent
      when nothing was fetched or built for it. */
  datatype Dep = Dep(ref: Ref, package: Option<Folder>)

  /** The root's dependencies, split by context, each in the graph's order. */
  datatype Graph = Graph(build: seq<Dep>, host: seq<Dep>)

  function DepsOf(g: Graph, c: Context): seq<Dep>
  {
    match c
    case Build => g.build
    case Host => g.host
  }

  /** A dependency record: its context and its position in that context. */
  datatype DepId = DepId(context: Context, index: nat)

  /** The two calls `deploy` makes to `_copytree` for one dependency. */
  datatype CopyCall = MainMerge(dep: DepId) | LicenceCopy(dep: DepId)

  /** What the deployer gets from outside: the output folder it was given,
      the `tools.deployer:symlinks` conf value if one is set, and what the
      operating system raises, if anything, during each copy. */
  datatype Env = Env(outputFolder: string, symlinksConf: Option<bool>, osFault: CopyCall -> Option<string>)

  /** `conf.get("tools.deployer:symlinks", check_type=bool, default=True)`. */
  function SymlinksSetting(conf: Option<bool>): (r: bool)
    ensures r <==> conf != Some(false)
  {
    match conf
    case None => true
    case Some(b) => b
  }

  datatype LogLine = ErrorLine(text: string) | SuccessLine(text: string)

  datatype Outcome = Deployed | Aborted(message: string)

  const Scope := "merged_deploy"
  const LicencesDir := "licenses"
  const IgnoredNames: set<Name> := {"licenses", "conaninfo.txt", "conanmanifest.txt"}
  const PrivilegeMessage := "Symlinks on Windows require admin privileges or 'Developer mode = ON'"
  const SymlinkHint := "\nYou can use 'tools.deployer:symlinks' conf to disable symlinks"
  const PrivilegeMarker := "WinError 1314"

  /** `os.path.join(a, b)` with POSIX separators. */
  function PathJoin(a: string, b: string): string
  {
    if |b| > 0 && b[0] == '/' then b
    else if a == [] || a[|a| - 1] == '/' then a + b
    else a + "/" + b
  }

  function DeployRoot(env: Env): string
  {
    PathJoin(env.outputFolder, Scope)
  }

  /** The deploy folder a dependency of context `c` is given. */
  function SubdirText(env: Env, c: Context): string
  {
    PathJoin(DeployRoot(env), ContextName(c))
  }

  /** Python's `pattern in s` on strings. */
  predicate Contains(s: string, pattern: string)
    decreases |s|
  {
    pattern <= s || (|s| > 0 && Contains(s[1..], pattern))
  }

  function SkipMessage(ref: Ref): string
  {
    ref.display + " does not have a package folder, skipping"
  }

  function SuccessMessage(env: Env): string
  {
    "Deployed dependencies to: " + DeployRoot(env)
  }

  /** The text of the ConanException a failed copy of `ref`'s files raises. */
  function CopyErrorMessage(ref: Ref, c: Cause, symlinks: bool): string
  {
    var err := Scope + ": Copying of '" + ref.display + "' files failed: " + CauseText(c) + ".";
    if symlinks then err + SymlinkHint else err
  }

  /** The extra error line logged before raising, for a symlink privilege error. */
  function PrivilegeLog(c: Cause): seq<LogLine>
  {
    if Contains(CauseText(c), PrivilegeMarker) then [ErrorLine(PrivilegeMessage)] else []
  }

  /** The deployer's state: the tree under `merged_deploy` (paths relative
      to it), the deploy folders set so far, and the log. */
  datatype Run = Run(tree: Tree, folders: map<DepId, string>, log: seq<LogLine>)

  /** Where a piece of the deployment leaves the state, and whether it raised. */
  datatype Step = Continue(run: Run) | Abort(run: Run, message: string)

  /** `_copytree(src, dst, ...)`: the copy, or the wrapped error. */
  function GuardedCopy(r: Run, src: Source, dst: Path, ignored: set<Name>, dep: Dep, call: CopyCall, env: Env): Step
  {
    match CopyTree(r.tree, src, dst, ignored, env.osFault(call))
    case Success(t) => Continue(r.(tree := t))
    case Failure(c) => Abort(r.(log := r.log + PrivilegeLog(c)), CopyErrorMessage(dep.ref, c, SymlinksSetting(env.symlinksConf)))
  }

  /** The source of the licence copy when `<package>/licenses` exists. */
  function LicenceSource(pkg: Folder): Option<Source>
  {
    if [LicencesDir] !in pkg then None
    else if pkg[[LicencesDir]].Dir? then Some(Directory(Below(pkg, LicencesDir)))
    else Some(RegularFile)
  }

  function LicenceDest(c: Context, ref: Ref): Path
  {
    [ContextName(c), LicencesDir, ref.name]
  }

  /** The licence copy of one dependency, when it has a licence folder. */
  function LicenceStep(r: Run, pkg: Folder, id: DepId, dep: Dep, env: Env): Step
  {
    match LicenceSource(pkg)
    case None => Continue(r)
    case Some(src) => GuardedCopy(r, src, LicenceDest(id.context, dep.ref), {}, dep, LicenceCopy(id), env)
  }

  /** One pass of the inner loop: skip, or merge, copy licences and set the
      deploy folder. */
  function MergeDep(r: Run, id: DepId, dep: Dep, env: Env): Step
  {
    match dep.package
    case None => Continue(r.(log := r.log + [ErrorLine(SkipMessage(dep.ref))]))
    case Some(pkg) =>
      match GuardedCopy(r, Directory(pkg), [ContextName(id.context)], IgnoredNames, dep, MainMerge(id), env)
      case Abort(r1, m) => Abort(r1, m)
      case Continue(r1) =>
        match LicenceStep(r1, pkg, id, dep, env)
        case Abort(r2, m) => Abort(r2, m)
        case Continue(r2) => Continue(r2.(folders := r2.folders[id := SubdirText(env, id.context)]))
  }

  /** The inner loop from dependency `i` of context `c` on. */
  function MergeContext(r: Run, c: Context, deps: seq<Dep>, i: nat, env: Env): Step
    decreases |deps| - i
  {
    if i >= |deps| then Continue(r)
    else
      match MergeDep(r, DepId(c, i), deps[i], env)
      case Abort(r1, m) => Abort(r1, m)
      case Continue(r1) => MergeContext(r1, c, deps, i + 1, env)
  }

  /** `mkdir(path)`, which does nothing when the path exists. */
  function MkDir(t: Tree, p: Path): Tree
  {
    if p in t then t else t[p := Dir]
  }

  function EnterContext(r: Run, c: Context): Run
  {
    r.(tree := MkDir(r.tree, [ContextName(c)]))
  }

  /** The outer loop from context number `k` on. */
  function MergeContexts(r: Run, g: Graph, env: Env, k: nat): Step
    decreases |Contexts| - k
  {
    if k >= |Contexts| then Continue(r)
    else
      var c := Contexts[k];
      match MergeContext(EnterContext(r, c), c, DepsOf(g, c), 0, env)
      case Abort(r1, m) => Abort(r1, m)
      case Continue(r1) => MergeContexts(r1, g, env, k + 1)
  }

  lemma ContextContinues(r: Run, c: Context, deps: seq<Dep>, i: nat, env: Env, r1: Run)
    requires i < |deps| && MergeDep(r, DepId(c, i), deps[i], env) == Continue(r1)
    ensures MergeContext(r, c, deps, i, env) == MergeContext(r1, c, deps, i + 1, env)
  {
  }

  lemma ContextStep(r: Run, c: Context, deps: seq<Dep>, i: nat, env: Env, r': Run)
    requires i < |deps| && MergeContext(r, c, deps, i, env) == Continue(r')
    ensures MergeDep(r, DepId(c, i), deps[i], env).Continue?
    ensures MergeContext(MergeDep(r, DepId(c, i), deps[i], env).run, c, deps, i + 1, env) == Continue(r')
  {
  }

  lemma CopyContinues(r: Run, src: Source, dst: Path, ignored: set<Name>, dep: Dep, call: CopyCall, env: Env, r1: Run)
    requires GuardedCopy(r, src, dst, ignored, dep, call, env) == Continue(r1)
    ensures CopyTree(r.tree, src, dst, ignored, env.osFault(call)) == Success(r1.tree)
    ensures r1 == r.(tree := r1.tree)
  {
  }

  lemma ContextStops(r: Run, c: Context, deps: seq<Dep>, i: nat, env: Env, r1: Run, m: string)
    requires i < |deps| && MergeDep(r, DepId(c, i), deps[i], env) == Abort(r1, m)
    ensures MergeContext(r, c, deps, i, env) == Abort(r1, m)
  {
  }

  lemma ContextsContinue(r: Run, g: Graph, env: Env, k: nat, r1: Run)
    requires k < |Contexts|
    requires MergeContext(EnterContext(r, Contexts[k]), Contexts[k], DepsOf(g, Contexts[k]), 0, env) == Continue(r1)
    ensures MergeContexts(r, g, env, k) == MergeContexts(r1, g, env, k + 1)
  {
  }

  lemma ContextsStop(r: Run, g: Graph, env: Env, k: nat, r1: Run, m: string)
    requires k < |Contexts|
    requires MergeContext(EnterContext(r, Contexts[k]), Contexts[k], DepsOf(g, Contexts[k]), 0, env) == Abort(r1, m)
    ensures MergeContexts(r, g, env, k) == Abort(r1, m)
  {
  }

  datatype Deployment = Deployment(run: Run, outcome: Outcome)

  lemma DeployStops(g: Graph, env: Env, folders: map<DepId, string>, log: seq<LogLine>, r: Run, m: string)
    requires MergeContexts(Run(map[], folders, log), g, env, 0) == Abort(r, m)
    ensures DeployResult(g, env, folders, log) == Deployment(r, Aborted(m))
  {
  }

  lemma DeployFinishes(g: Graph, env: Env, folders: map<DepId, string>, log: seq<LogLine>, r: Run)
    requires MergeContexts(Run(map[], folders, log), g, env, 0) == Continue(r)
    ensures DeployResult(g, env, folders, log)
            == Deployment(r.(log := r.log + [SuccessLine(SuccessMessage(env))]), Deployed)
  {
  }

  /** Making a top-level directory keeps a tree well formed. */
  lemma MkDirWellFormed(t: Tree, p: Path)
    requires WellFormed(t) && |p| == 1
    ensures WellFormed(MkDir(t, p))
  {
    var t' := MkDir(t, p);
    forall q {:trigger Parent(q)} | |q| > 1 && q in t'
      ensures Parent(q) in t' && t'[Parent(q)] == Dir
    {
      assert q in t;
    }
  }

  /** The whole of `deploy`, from the deploy folders and log it starts with.
      The tree it starts from does not matter: it is wiped first. */
  function DeployResult(g: Graph, env: Env, folders: map<DepId, string>, log: seq<LogLine>): Deployment
  {
    match MergeContexts(Run(map[], folders, log), g, env, 0)
    case Abort(r, m) => Deployment(r, Aborted(m))
    case Continue(r) => Deployment(r.(log := r.log + [SuccessLine(SuccessMessage(env))]), Deployed)
  }

  /** The output folder, the dependency records' deploy folders and the log
      that `deploy` works on. */
  class MergedDeployer {
    var tree: Tree
    var deployFolders: map<DepId, string>
    var log: seq<LogLine>

    ghost predicate Valid()
      reads this
    {
      WellFormed(tree)
    }

    function State(): Run
      reads this
    {
      Run(tree, deployFolders, log)
    }

    /** A deployer over whatever `merged_deploy` holds now. */
    constructor(existing: Tree)
      requires WellFormed(existing)
      ensures Valid()
      ensures tree == existing && deployFolders == map[] && log == []
    {
      tree := existing;
      deployFolders := map[];
      log := [];
    }

    /** `_copytree`: copy, or log the privilege hint when it applies and
        return the text of the exception to raise. */
    method GuardedCopyTree(src: Source, dst: Path, ignored: set<Name>, dep: Dep, call: CopyCall, env: Env)
      returns (err: Option<string>)
      requires Valid()
      modifies this
      ensures Valid()
      ensures GuardedCopy(old(State()), src, dst, ignored, dep, call, env)
              == if err.None? then Continue(State()) else Abort(State(), err.value)
    {
      ghost var before := State();
      var symlinks := SymlinksSetting(env.symlinksConf);
      var result := CopyTree(tree, src, dst, ignored, env.osFault(call));
      match result
      case Success(t) =>
        CopyTreeWellFormed(tree, src.entries, dst, ignored, env.osFault(call), t);
        tree := t;
        err := None;
        assert State() == before.(tree := t);
      case Failure(c) =>
        if Contains(CauseText(c), PrivilegeMarker) {
          log := log + [ErrorLine(PrivilegeMessage)];
          assert log == before.log + PrivilegeLog(c);
        } else {
          assert log == before.log + PrivilegeLog(c);
        }
        var message := Scope + ": Copying of '" + dep.ref.display + "' files failed: " + CauseText(c) + ".";
        if symlinks {
          message := message + SymlinkHint;
        }
        err := Some(message);
        assert State() == before.(log := before.log + PrivilegeLog(c));
    }

    /** `deploy(graph, output_folder)`. */
    method Deploy(g: Graph, env: Env) returns (outcome: Outcome)
      modifies this
      ensures Valid()
      ensures DeployResult(g, env, old(deployFolders), old(log)) == Deployment(State(), outcome)
    {
      tree := map[];  // rmdir(output_folder); mkdir(output_folder)
      ghost var start := State();
      for k := 0 to |Contexts|
        invariant Valid()
        invariant MergeContexts(start, g, env, 0) == MergeContexts(State(), g, env, k)
      {
        var c := Contexts[k];
        var subdir := [ContextName(c)];
        ghost var before := State();
        MkDirWellFormed(tree, subdir);
        tree := MkDir(tree, subdir);
        var deps := DepsOf(g, c);
        ghost var entry := State();
        assert entry == EnterContext(before, c);
        for i := 0 to |deps|
          invariant Valid()
          invariant MergeContext(entry, c, deps, 0, env) == MergeContext(State(), c, deps, i, env)
        {
          var dep := deps[i];
          var id := DepId(c, i);
          ghost var here := State();
          if dep.package.None? {
            log := log + [ErrorLine(SkipMessage(dep.ref))];
            ContextContinues(here, c, deps, i, env, State());
            continue;
          }
          var pkg := dep.package.value;
          var err := GuardedCopyTree(Directory(pkg), subdir, IgnoredNames, dep, MainMerge(id), env);
          if err.Some? {
            ContextStops(here, c, deps, i, env, State(), err.value);
            ContextsStop(before, g, env, k, State(), err.value);
            DeployStops(g, env, start.folders, start.log, State(), err.value);
            outcome := Aborted(err.value);
            return;
          }
          ghost var merged := State();
          var licences := LicenceSource(pkg);
          if licences.Some? {
            err := GuardedCopyTree(licences.value, LicenceDest(c, dep.ref), {}, dep, LicenceCopy(id), env);
            if err.Some? {
              assert LicenceStep(merged, pkg, id, dep, env) == Abort(State(), err.value);
              ContextStops(here, c, deps, i, env, State(), err.value);
              ContextsStop(before, g, env, k, State(), err.value);
              DeployStops(g, env, start.folders, start.log, State(), err.value);
              outcome := Aborted(err.value);
              return;
            }
          }
          assert LicenceStep(merged, pkg, id, dep, env) == Continue(State());
          deployFolders := deployFolders[id := SubdirText(env, c)];
          ContextContinues(here, c, deps, i, env, State());
        }
        ContextsContinue(before, g, env, k, State());
      }
      assert MergeContexts(State(), g, env, |Contexts|) == Continue(State());
      DeployFinishes(g, env, start.folders, start.log, State());
      log := log + [SuccessLine(SuccessMessage(env))];
      outcome := Deployed;
    }
  }
}
