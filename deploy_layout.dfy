/**
  What the merged tree holds after a successful deployment, defined per
  path without replaying the copies: under `<context>/`, each path holds the
  entry of the last dependency of that context that provides it, and under
  `<context>/licenses/<name>/` the licence file of the last dependency
  called `name` that has it.
 */
module DeployLayout {
  import opened Wrappers
  import opened FileTree
  import opened MergedDeploy

  /** Dependency `d` contributes `p` to the main merge of its context. */
  predicate Provides(d: Dep, p: Path)
  {
    d.package.Some? && p in d.package.value && Kept(p, IgnoredNames)
  }

  /** The entry that the last dependency in `deps` providing `p` has there. */
  function Provided(deps: seq<Dep>, p: Path): Option<Node>
    decreases |deps|
  {
    if deps == [] then None
    else
      var d := deps[|deps| - 1];
      if Provides(d, p) then Some(d.package.value[p]) else Provided(deps[..|deps| - 1], p)
  }

  /** `<package>/licenses` exists and is a directory. */
  predicate HasLicenceDir(d: Dep)
  {
    d.package.Some? && [LicencesDir] in d.package.value && d.package.value[[LicencesDir]] == Dir
  }

  /** Dependency `d` is called `n` and has `licenses/p` in its package. */
  predicate ProvidesLicence(d: Dep, n: Name, p: Path)
  {
    HasLicenceDir(d) && d.ref.name == n && p != [] && [LicencesDir] + p in d.package.value
  }

  /** The entry that the last dependency called `n` that has `licenses/p`
      has there. */
  function LicenceProvided(deps: seq<Dep>, n: Name, p: Path): Option<Node>
    decreases |deps|
  {
    if deps == [] then None
    else
      var d := deps[|deps| - 1];
      if ProvidesLicence(d, n, p) then Some(d.package.value[[LicencesDir] + p])
      else LicenceProvided(deps[..|deps| - 1], n, p)
  }

  /** The names of the dependencies in `deps` that have a licence folder. */
  function LicenceNames(deps: seq<Dep>): set<Name>
    decreases |deps|
  {
    if deps == [] then {}
    else
      var d := deps[|deps| - 1];
      LicenceNames(deps[..|deps| - 1]) + if HasLicenceDir(d) then {d.ref.name} else {}
  }

  /** What `<context>/rest` holds once the dependencies `deps` of that
      context are deployed. */
  function ExpectedAt(deps: seq<Dep>, rest: Path): Option<Node>
  {
    if rest == [] then Some(Dir)
    else if rest[0] != LicencesDir then Provided(deps, rest)
    else if |rest| == 1 then (if LicenceNames(deps) != {} then Some(Dir) else None)
    else if |rest| == 2 then (if rest[1] in LicenceNames(deps) then Some(Dir) else None)
    else LicenceProvided(deps, rest[1], rest[2..])
  }

  /** What `merged_deploy/q` holds once graph `g` is deployed. */
  function Expected(g: Graph, q: Path): Option<Node>
  {
    if q == [] then None
    else if q[0] == ContextName(Build) then ExpectedAt(g.build, q[1..])
    else if q[0] == ContextName(Host) then ExpectedAt(g.host, q[1..])
    else None
  }

  /** The part of `t` under `<c>/` is what deploying `deps` gives. */
  ghost predicate Agrees(t: Tree, c: Context, deps: seq<Dep>)
  {
    forall rest :: Lookup(t, [ContextName(c)] + rest) == ExpectedAt(deps, rest)
  }

  /** `q` is not under `<c>/`. */
  predicate Outside(q: Path, c: Context)
  {
    q == [] || q[0] != ContextName(c)
  }

  /** Nothing outside `<c>/` differs between `t` and `t'`. */
  ghost predicate SameOutside(t: Tree, t': Tree, c: Context)
  {
    forall q :: Outside(q, c) ==> Lookup(t', q) == Lookup(t, q)
  }

  // ----- one dependency -----

  /** The main merge of a package into `<c>/`. */
  lemma MainMergeAt(r: Run, pkg: Folder, id: DepId, dep: Dep, env: Env, r1: Run)
    requires GuardedCopy(r, Directory(pkg), [ContextName(id.context)], IgnoredNames, dep, MainMerge(id), env) == Continue(r1)
    ensures r1.folders == r.folders && r1.log == r.log
    ensures SameOutside(r.tree, r1.tree, id.context)
    ensures forall rest :: Lookup(r1.tree, [ContextName(id.context)] + rest)
                           == if rest in pkg && Kept(rest, IgnoredNames) then Some(pkg[rest])
                              else if rest == [] then Some(Dir)
                              else Lookup(r.tree, [ContextName(id.context)] + rest)
  {
    CopyContinues(r, Directory(pkg), [ContextName(id.context)], IgnoredNames, dep, MainMerge(id), env, r1);
    var fault := env.osFault(MainMerge(id));
    MainCopyOutside(r.tree, pkg, id.context, fault, r1.tree);
    MainCopyInside(r.tree, pkg, id.context, fault, r1.tree);
  }

  lemma MainCopyOutside(t: Tree, pkg: Folder, c: Context, fault: Option<string>, t': Tree)
    requires CopyTree(t, Directory(pkg), [ContextName(c)], IgnoredNames, fault) == Success(t')
    ensures SameOutside(t, t', c)
  {
    forall q | Outside(q, c)
      ensures Lookup(t', q) == Lookup(t, q)
    {
      CopyTreeAt(t, pkg, [ContextName(c)], IgnoredNames, fault, t', q);
    }
  }

  lemma MainCopyInside(t: Tree, pkg: Folder, c: Context, fault: Option<string>, t': Tree)
    requires CopyTree(t, Directory(pkg), [ContextName(c)], IgnoredNames, fault) == Success(t')
    ensures forall rest :: Lookup(t', [ContextName(c)] + rest)
                           == if rest in pkg && Kept(rest, IgnoredNames) then Some(pkg[rest])
                              else if rest == [] then Some(Dir)
                              else Lookup(t, [ContextName(c)] + rest)
  {
    var dst := [ContextName(c)];
    forall rest
      ensures Lookup(t', dst + rest)
              == if rest in pkg && Kept(rest, IgnoredNames) then Some(pkg[rest])
                 else if rest == [] then Some(Dir)
                 else Lookup(t, dst + rest)
    {
      CopyTreeAt(t, pkg, dst, IgnoredNames, fault, t', dst + rest);
      assert (dst + rest)[|dst|..] == rest;
      assert IsPrefix(dst + rest, dst) ==> rest == [];
    }
  }

  /** Sequence facts about paths under `<c>/licenses/<n>/`. */
  lemma LicencePrefixes(c: Context, n: Name, rest: Path)
    ensures IsPrefix([ContextName(c), LicencesDir, n], [ContextName(c)] + rest) <==> IsPrefix([LicencesDir, n], rest)
    ensures IsPrefix([LicencesDir, n], rest) ==> ([ContextName(c)] + rest)[3..] == rest[2..]
    ensures (1 <= |[ContextName(c)] + rest| && IsPrefix([ContextName(c)] + rest, [ContextName(c), LicencesDir, n]))
            <==> IsPrefix(rest, [LicencesDir, n])
  {
    var q := [ContextName(c)] + rest;
    var dst := [ContextName(c), LicencesDir, n];
    if IsPrefix(dst, q) {
      assert q[1] == rest[0] == LicencesDir && q[2] == rest[1] == n;
      assert rest[..2] == [LicencesDir, n];
    }
    if IsPrefix([LicencesDir, n], rest) {
      assert q[..3] == dst;
    }
    if IsPrefix(q, dst) {
      assert rest == q[1..] == dst[1..|q|] == [LicencesDir, n][..|rest|];
    }
    if IsPrefix(rest, [LicencesDir, n]) {
      assert dst[..|q|] == q;
    }
  }

  /** Where a successful copy of the licence folder `sub` of `pkg` into
      `<c>/licenses/<n>/` leaves each path under `<c>/`. */
  lemma LicenceCopiedAt(t: Tree, pkg: Folder, sub: Folder, c: Context, n: Name, rest: Path)
    requires forall p :: p in sub <==> p != [] && [LicencesDir] + p in pkg
    requires forall p :: p in sub ==> sub[p] == pkg[[LicencesDir] + p]
    ensures CopiedAt(t, sub, [ContextName(c), LicencesDir, n], {}, [ContextName(c)] + rest)
            == if IsPrefix([LicencesDir, n], rest) && rest[2..] != [] && [LicencesDir] + rest[2..] in pkg
               then Some(pkg[[LicencesDir] + rest[2..]])
               else if IsPrefix(rest, [LicencesDir, n]) then Some(Dir)
               else Lookup(t, [ContextName(c)] + rest)
  {
    LicencePrefixes(c, n, rest);
    if IsPrefix([LicencesDir, n], rest) {
      var p := rest[2..];
      assert Kept(p, {});
      if p == [] {
        assert p !in sub;
      }
    }
  }

  /** A successful copy of `pkg`'s licence folder into `<c>/licenses/<n>/`. */
  lemma LicenceTreeAt(t: Tree, pkg: Folder, c: Context, n: Name, fault: Option<string>, t': Tree)
    requires CopyTree(t, Directory(Below(pkg, LicencesDir)), [ContextName(c), LicencesDir, n], {}, fault) == Success(t')
    ensures SameOutside(t, t', c)
    ensures forall rest :: Lookup(t', [ContextName(c)] + rest)
                           == if IsPrefix([LicencesDir, n], rest) && rest[2..] != [] && [LicencesDir] + rest[2..] in pkg
                              then Some(pkg[[LicencesDir] + rest[2..]])
                              else if IsPrefix(rest, [LicencesDir, n]) then Some(Dir)
                              else Lookup(t, [ContextName(c)] + rest)
  {
    var dst := [ContextName(c), LicencesDir, n];
    var sub := Below(pkg, LicencesDir);
    forall q | Outside(q, c)
      ensures Lookup(t', q) == Lookup(t, q)
    {
      CopyTreeAt(t, sub, dst, {}, fault, t', q);
    }
    forall rest
      ensures Lookup(t', [ContextName(c)] + rest)
              == if IsPrefix([LicencesDir, n], rest) && rest[2..] != [] && [LicencesDir] + rest[2..] in pkg
                 then Some(pkg[[LicencesDir] + rest[2..]])
                 else if IsPrefix(rest, [LicencesDir, n]) then Some(Dir)
                 else Lookup(t, [ContextName(c)] + rest)
    {
      CopyTreeAt(t, sub, dst, {}, fault, t', [ContextName(c)] + rest);
      LicenceCopiedAt(t, pkg, sub, c, n, rest);
    }
  }

  /** The licence copy of a package into `<c>/licenses/<name>/`. */
  lemma LicenceCopyAt(r1: Run, pkg: Folder, id: DepId, dep: Dep, env: Env, r2: Run)
    requires dep.package == Some(pkg)
    requires LicenceStep(r1, pkg, id, dep, env) == Continue(r2)
    ensures r2.folders == r1.folders && r2.log == r1.log
    ensures [LicencesDir] in pkg ==> HasLicenceDir(dep)
    ensures SameOutside(r1.tree, r2.tree, id.context)
    ensures forall rest :: Lookup(r2.tree, [ContextName(id.context)] + rest)
                           == if HasLicenceDir(dep) && IsPrefix([LicencesDir, dep.ref.name], rest)
                                 && rest[2..] != [] && [LicencesDir] + rest[2..] in pkg
                              then Some(pkg[[LicencesDir] + rest[2..]])
                              else if HasLicenceDir(dep) && IsPrefix(rest, [LicencesDir, dep.ref.name]) then Some(Dir)
                              else Lookup(r1.tree, [ContextName(id.context)] + rest)
  {
    if LicenceSource(pkg).Some? {
      var fault := env.osFault(LicenceCopy(id));
      assert LicenceSource(pkg) == Some(Directory(Below(pkg, LicencesDir)));
      LicenceTreeAt(r1.tree, pkg, id.context, dep.ref.name, fault, r2.tree);
    }
  }

  /** The reference description, one dependency further on. */
  lemma ExpectedAtExtend(ds: seq<Dep>, d: Dep, pkg: Folder, rest: Path)
    requires d.package == Some(pkg)
    ensures ExpectedAt(ds + [d], rest)
            == if rest in pkg && Kept(rest, IgnoredNames) then Some(pkg[rest])
               else if HasLicenceDir(d) && IsPrefix([LicencesDir, d.ref.name], rest)
                       && rest[2..] != [] && [LicencesDir] + rest[2..] in pkg
               then Some(pkg[[LicencesDir] + rest[2..]])
               else if rest == [] then Some(Dir)
               else if HasLicenceDir(d) && IsPrefix(rest, [LicencesDir, d.ref.name]) then Some(Dir)
               else ExpectedAt(ds, rest)
  {
    var ds' := ds + [d];
    assert ds'[..|ds'| - 1] == ds && ds'[|ds'| - 1] == d;
    assert [] !in pkg;
    if rest != [] && rest[0] == LicencesDir {
      assert !Kept(rest, IgnoredNames);
      if |rest| >= 3 {
        assert IsPrefix([LicencesDir, d.ref.name], rest) <==> rest[1] == d.ref.name;
      } else if |rest| == 2 {
        assert IsPrefix(rest, [LicencesDir, d.ref.name]) <==> rest[1] == d.ref.name;
      }
    }
  }

  /** A dependency without a package folder leaves the description as it is. */
  lemma ExpectedAtSkip(ds: seq<Dep>, d: Dep, rest: Path)
    requires d.package.None?
    ensures ExpectedAt(ds + [d], rest) == ExpectedAt(ds, rest)
  {
    var ds' := ds + [d];
    assert ds'[..|ds'| - 1] == ds && ds'[|ds'| - 1] == d;
  }

  /** The main merge followed by the licence copy of one package keep the
      tree under `<c>/` in line with the description. */
  lemma PackageLayout(t: Tree, t1: Tree, t2: Tree, c: Context, ds: seq<Dep>, d: Dep, pkg: Folder)
    requires d.package == Some(pkg)
    requires Agrees(t, c, ds)
    requires forall rest :: Lookup(t1, [ContextName(c)] + rest)
                            == if rest in pkg && Kept(rest, IgnoredNames) then Some(pkg[rest])
                               else if rest == [] then Some(Dir)
                               else Lookup(t, [ContextName(c)] + rest)
    requires forall rest :: Lookup(t2, [ContextName(c)] + rest)
                            == if HasLicenceDir(d) && IsPrefix([LicencesDir, d.ref.name], rest)
                                  && rest[2..] != [] && [LicencesDir] + rest[2..] in pkg
                               then Some(pkg[[LicencesDir] + rest[2..]])
                               else if HasLicenceDir(d) && IsPrefix(rest, [LicencesDir, d.ref.name]) then Some(Dir)
                               else Lookup(t1, [ContextName(c)] + rest)
    ensures Agrees(t2, c, ds + [d])
  {
    var cn := [ContextName(c)];
    forall rest
      ensures Lookup(t2, cn + rest) == ExpectedAt(ds + [d], rest)
    {
      ExpectedAtExtend(ds, d, pkg, rest);
      assert Lookup(t, cn + rest) == ExpectedAt(ds, rest);
      if rest in pkg && Kept(rest, IgnoredNames) {
        assert rest[0] != LicencesDir;
        assert !IsPrefix([LicencesDir, d.ref.name], rest);
        assert !IsPrefix(rest, [LicencesDir, d.ref.name]);
      }
    }
  }

  /** One pass of the inner loop keeps the tree under `<c>/` in line with
      the description and changes nothing outside `<c>/`. */
  lemma MergeDepLayout(r: Run, c: Context, i: nat, ds: seq<Dep>, d: Dep, env: Env, r': Run)
    requires Agrees(r.tree, c, ds)
    requires MergeDep(r, DepId(c, i), d, env) == Continue(r')
    ensures Agrees(r'.tree, c, ds + [d])
    ensures SameOutside(r.tree, r'.tree, c)
  {
    var cn := [ContextName(c)];
    match d.package
    case None =>
      forall rest
        ensures Lookup(r'.tree, cn + rest) == ExpectedAt(ds + [d], rest)
      {
        ExpectedAtSkip(ds, d, rest);
      }
    case Some(pkg) =>
      var id := DepId(c, i);
      var s1 := GuardedCopy(r, Directory(pkg), cn, IgnoredNames, d, MainMerge(id), env);
      assert s1.Continue?;
      var r1 := s1.run;
      var s2 := LicenceStep(r1, pkg, id, d, env);
      assert s2.Continue?;
      var r2 := s2.run;
      assert r'.tree == r2.tree;
      MainMergeAt(r, pkg, id, d, env, r1);
      LicenceCopyAt(r1, pkg, id, d, env, r2);
      PackageLayout(r.tree, r1.tree, r2.tree, c, ds, d, pkg);
  }

  // ----- the loops -----

  lemma SameOutsideTrans(t1: Tree, t2: Tree, t3: Tree, c: Context)
    requires SameOutside(t1, t2, c) && SameOutside(t2, t3, c)
    ensures SameOutside(t1, t3, c)
  {
  }

  lemma TakeOneMore(deps: seq<Dep>, i: nat)
    requires i < |deps|
    ensures deps[..i] + [deps[i]] == deps[..i + 1]
  {
  }

  /** The inner loop, from dependency `i` on, keeps the tree under `<c>/`
      in line with the description and changes nothing outside `<c>/`. */
  lemma {:induction false} MergeContextLayout(r: Run, c: Context, deps: seq<Dep>, i: nat, env: Env, r': Run)
    requires i <= |deps|
    requires Agrees(r.tree, c, deps[..i])
    requires MergeContext(r, c, deps, i, env) == Continue(r')
    ensures Agrees(r'.tree, c, deps)
    ensures SameOutside(r.tree, r'.tree, c)
    decreases |deps| - i
  {
    if i == |deps| {
      assert deps[..i] == deps;
    } else {
      ContextStep(r, c, deps, i, env, r');
      var s := MergeDep(r, DepId(c, i), deps[i], env);
      MergeDepLayout(r, c, i, deps[..i], deps[i], env, s.run);
      TakeOneMore(deps, i);
      MergeContextLayout(s.run, c, deps, i + 1, env, r');
      SameOutsideTrans(r.tree, s.run.tree, r'.tree, c);
    }
  }

  /** Entering a context whose folder does not exist yet. */
  lemma EnterContextLayout(r: Run, c: Context)
    requires forall rest :: Lookup(r.tree, [ContextName(c)] + rest) == None
    ensures Agrees(EnterContext(r, c).tree, c, [])
    ensures SameOutside(r.tree, EnterContext(r, c).tree, c)
  {
    var cn := [ContextName(c)];
    assert Lookup(r.tree, cn + []) == None;
    forall rest
      ensures Lookup(EnterContext(r, c).tree, cn + rest) == ExpectedAt([], rest)
    {
      if rest != [] {
        assert cn + rest != cn;
      } else {
        assert cn + rest == cn;
      }
    }
  }

  /** After a successful deployment, every path of `merged_deploy` holds
      exactly what the reference description `Expected` says: the tree
      depends on nothing but the graph, whatever was there before. */
  lemma DeployedTree(g: Graph, env: Env, folders: map<DepId, string>, log: seq<LogLine>)
    requires DeployResult(g, env, folders, log).outcome == Deployed
    ensures forall q :: Lookup(DeployResult(g, env, folders, log).run.tree, q) == Expected(g, q)
  {
    var r0 := Run(map[], folders, log);
    var e0 := EnterContext(r0, Build);
    EnterContextLayout(r0, Build);
    var s1 := MergeContext(e0, Build, g.build, 0, env);
    assert s1.Continue?;
    var r1 := s1.run;
    assert g.build[..0] == [];
    MergeContextLayout(e0, Build, g.build, 0, env, r1);
    forall rest
      ensures Lookup(r1.tree, [ContextName(Host)] + rest) == None
    {
      assert Outside([ContextName(Host)] + rest, Build);
    }
    var e1 := EnterContext(r1, Host);
    EnterContextLayout(r1, Host);
    var s2 := MergeContext(e1, Host, g.host, 0, env);
    assert s2.Continue?;
    var r2 := s2.run;
    assert g.host[..0] == [];
    MergeContextLayout(e1, Host, g.host, 0, env, r2);
    assert MergeContexts(r2, g, env, 2) == Continue(r2);
    assert DeployResult(g, env, folders, log).run.tree == r2.tree;
    forall q
      ensures Lookup(r2.tree, q) == Expected(g, q)
    {
      if q != [] && q[0] == ContextName(Build) {
        assert q == [ContextName(Build)] + q[1..];
        assert Lookup(r1.tree, q) == ExpectedAt(g.build, q[1..]);
        assert Outside(q, Host);
      } else if q != [] && q[0] == ContextName(Host) {
        assert q == [ContextName(Host)] + q[1..];
      } else {
        assert Outside(q, Build) && Outside(q, Host);
      }
    }
  }

  // ----- facts about the description -----

  /** The last dependency that provides `p` gives it its entry. */
  lemma {:induction false} ProvidedByLast(ds: seq<Dep>, j: nat, p: Path)
    requires j < |ds| && Provides(ds[j], p)
    requires forall k :: j < k < |ds| ==> !Provides(ds[k], p)
    ensures Provided(ds, p) == Some(ds[j].package.value[p])
    decreases |ds|
  {
    if j < |ds| - 1 {
      var init := ds[..|ds| - 1];
      assert forall k :: j < k < |init| ==> init[k] == ds[k];
      ProvidedByLast(init, j, p);
    }
  }

  /** A path no dependency provides gets no entry. */
  lemma {:induction false} ProvidedByNone(ds: seq<Dep>, p: Path)
    requires forall k :: 0 <= k < |ds| ==> !Provides(ds[k], p)
    ensures Provided(ds, p) == None
    decreases |ds|
  {
    if ds != [] {
      var init := ds[..|ds| - 1];
      assert forall k :: 0 <= k < |init| ==> init[k] == ds[k];
      ProvidedByNone(init, p);
    }
  }

  /** Whatever the main merge provides has no ignored component. */
  lemma {:induction false} ProvidedIsKept(ds: seq<Dep>, p: Path)
    requires Provided(ds, p).Some?
    ensures Kept(p, IgnoredNames)
    decreases |ds|
  {
    if !Provides(ds[|ds| - 1], p) {
      ProvidedIsKept(ds[..|ds| - 1], p);
    }
  }

  /** The last dependency called `n` that has `licenses/p` gives
      `licenses/n/p` its entry. */
  lemma {:induction false} LicenceProvidedByLast(ds: seq<Dep>, j: nat, n: Name, p: Path)
    requires j < |ds| && ProvidesLicence(ds[j], n, p)
    requires forall k :: j < k < |ds| ==> !ProvidesLicence(ds[k], n, p)
    ensures LicenceProvided(ds, n, p) == Some(ds[j].package.value[[LicencesDir] + p])
    decreases |ds|
  {
    if j < |ds| - 1 {
      var init := ds[..|ds| - 1];
      assert forall k :: j < k < |init| ==> init[k] == ds[k];
      LicenceProvidedByLast(init, j, n, p);
    }
  }

  /** Without any licence folder, there are no licence entries at all. */
  lemma {:induction false} NoLicenceDirs(ds: seq<Dep>, n: Name, p: Path)
    requires forall k :: 0 <= k < |ds| ==> !HasLicenceDir(ds[k])
    ensures LicenceNames(ds) == {} && LicenceProvided(ds, n, p) == None
    decreases |ds|
  {
    if ds != [] {
      var init := ds[..|ds| - 1];
      assert forall k :: 0 <= k < |init| ==> init[k] == ds[k];
      NoLicenceDirs(init, n, p);
    }
  }

  // ----- consequences for a successful deployment -----

  /** The reference description of one context, read off the merged tree. */
  lemma DeployedUnder(g: Graph, env: Env, folders: map<DepId, string>, log: seq<LogLine>, c: Context, rest: Path)
    requires DeployResult(g, env, folders, log).outcome == Deployed
    ensures Lookup(DeployResult(g, env, folders, log).run.tree, [ContextName(c)] + rest) == ExpectedAt(DepsOf(g, c), rest)
  {
    DeployedTree(g, env, folders, log);
    var q := [ContextName(c)] + rest;
    assert q[1..] == rest;
  }

  /** Where two dependencies of a context provide the same path, the later
      one's entry is what the merged tree holds; earlier ones are
      overwritten. */
  lemma LastProviderWins(g: Graph, env: Env, folders: map<DepId, string>, log: seq<LogLine>, c: Context, j: nat, p: Path)
    requires DeployResult(g, env, folders, log).outcome == Deployed
    requires j < |DepsOf(g, c)| && Provides(DepsOf(g, c)[j], p)
    requires forall k :: j < k < |DepsOf(g, c)| ==> !Provides(DepsOf(g, c)[k], p)
    ensures Lookup(DeployResult(g, env, folders, log).run.tree, [ContextName(c)] + p)
            == Some(DepsOf(g, c)[j].package.value[p])
  {
    DeployedUnder(g, env, folders, log, c, p);
    assert p != [] by { assert FileTree.WellFormed(DepsOf(g, c)[j].package.value); }
    assert p[0] != LicencesDir;
    ProvidedByLast(DepsOf(g, c), j, p);
  }

  /** A path that no dependency of the context provides (and that is not
      under `licenses/`) is absent from the merged tree: nothing is left
      over from earlier deployments. */
  lemma UnprovidedPathAbsent(g: Graph, env: Env, folders: map<DepId, string>, log: seq<LogLine>, c: Context, p: Path)
    requires DeployResult(g, env, folders, log).outcome == Deployed
    requires p != [] && p[0] != LicencesDir
    requires forall k :: 0 <= k < |DepsOf(g, c)| ==> !Provides(DepsOf(g, c)[k], p)
    ensures [ContextName(c)] + p !in DeployResult(g, env, folders, log).run.tree
  {
    DeployedUnder(g, env, folders, log, c, p);
    ProvidedByNone(DepsOf(g, c), p);
  }

  /** Outside `<context>/licenses/`, no path of the merged tree has a
      component named `licenses`, `conaninfo.txt` or `conanmanifest.txt`,
      at any depth; and every path lies under `build/` or `host/`. */
  lemma MetadataNeverMerged(g: Graph, env: Env, folders: map<DepId, string>, log: seq<LogLine>, q: Path)
    requires DeployResult(g, env, folders, log).outcome == Deployed
    requires q in DeployResult(g, env, folders, log).run.tree
    ensures q != [] && (q[0] == "build" || q[0] == "host")
    ensures |q| >= 2 && q[1] != LicencesDir ==> Kept(q[1..], IgnoredNames)
  {
    DeployedTree(g, env, folders, log);
    assert Expected(g, q).Some?;
    if |q| >= 2 && q[1] != LicencesDir {
      var c := if q[0] == "build" then Build else Host;
      assert ExpectedAt(DepsOf(g, c), q[1..]) == Provided(DepsOf(g, c), q[1..]);
      ProvidedIsKept(DepsOf(g, c), q[1..]);
    }
  }

  lemma LicencePath(cn: Name, n: Name, p: Path)
    ensures [cn, LicencesDir, n] + p == [cn] + ([LicencesDir, n] + p)
    ensures ([LicencesDir, n] + p)[0] == LicencesDir && ([LicencesDir, n] + p)[1] == n
    ensures ([LicencesDir, n] + p)[2..] == p
  {
  }

  /** The licence folder of a dependency is copied whole, without the
      filter, to `<context>/licenses/<name>/`; where two dependencies of
      the same name have the same licence file, the later one wins. */
  lemma LicencesPlaced(g: Graph, env: Env, folders: map<DepId, string>, log: seq<LogLine>, c: Context, j: nat, p: Path)
    requires DeployResult(g, env, folders, log).outcome == Deployed
    requires j < |DepsOf(g, c)| && ProvidesLicence(DepsOf(g, c)[j], DepsOf(g, c)[j].ref.name, p)
    requires forall k :: j < k < |DepsOf(g, c)| ==> !ProvidesLicence(DepsOf(g, c)[k], DepsOf(g, c)[j].ref.name, p)
    ensures Lookup(DeployResult(g, env, folders, log).run.tree, [ContextName(c), LicencesDir, DepsOf(g, c)[j].ref.name] + p)
            == Some(DepsOf(g, c)[j].package.value[[LicencesDir] + p])
  {
    var n := DepsOf(g, c)[j].ref.name;
    var rest := [LicencesDir, n] + p;
    LicencePath(ContextName(c), n, p);
    DeployedUnder(g, env, folders, log, c, rest);
    LicenceProvidedByLast(DepsOf(g, c), j, n, p);
  }

  /** When no dependency of a context has a licence folder, nothing is
      written under `<context>/licenses/`. */
  lemma NoLicencesNoLicenceFolder(g: Graph, env: Env, folders: map<DepId, string>, log: seq<LogLine>, c: Context, p: Path)
    requires DeployResult(g, env, folders, log).outcome == Deployed
    requires forall k :: 0 <= k < |DepsOf(g, c)| ==> !HasLicenceDir(DepsOf(g, c)[k])
    ensures [ContextName(c), LicencesDir] + p !in DeployResult(g, env, folders, log).run.tree
  {
    var rest := [LicencesDir] + p;
    LicenceFolderPath(ContextName(c), p);
    DeployedUnder(g, env, folders, log, c, rest);
    if |p| >= 1 {
      NoLicenceDirs(DepsOf(g, c), p[0], p[1..]);
    } else {
      NoLicenceDirs(DepsOf(g, c), "", []);
    }
  }

  lemma LicenceFolderPath(cn: Name, p: Path)
    ensures [cn, LicencesDir] + p == [cn] + ([LicencesDir] + p)
    ensures ([LicencesDir] + p)[0] == LicencesDir && |[LicencesDir] + p| == 1 + |p|
    ensures |p| >= 1 ==> ([LicencesDir] + p)[1] == p[0] && ([LicencesDir] + p)[2..] == p[1..]
  {
  }

  /** The build part of the merged tree depends only on the build
      dependencies and the host part only on the host dependencies. */
  lemma ContextsKeptApart(g1: Graph, g2: Graph, env1: Env, env2: Env, f1: map<DepId, string>, l1: seq<LogLine>,
                          f2: map<DepId, string>, l2: seq<LogLine>, c: Context, rest: Path)
    requires DeployResult(g1, env1, f1, l1).outcome == Deployed
    requires DeployResult(g2, env2, f2, l2).outcome == Deployed
    requires DepsOf(g1, c) == DepsOf(g2, c)
    ensures Lookup(DeployResult(g1, env1, f1, l1).run.tree, [ContextName(c)] + rest)
            == Lookup(DeployResult(g2, env2, f2, l2).run.tree, [ContextName(c)] + rest)
  {
    DeployedUnder(g1, env1, f1, l1, c, rest);
    DeployedUnder(g2, env2, f2, l2, c, rest);
  }
}
