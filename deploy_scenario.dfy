/**
  A worked deployment: no build dependencies; host dependencies `A`, with
  no package folder, and `B`, whose package holds `file.txt` and
  `licenses/LICENSE`.
*/
module DeployScenario {
  import opened Wrappers
  import opened FileTree
  import opened MergedDeploy
  import opened DeployLayout

  function PackageB(text: seq<bv8>, licence: seq<bv8>): Folder
  {
    var t := map[["file.txt"] := File(text), ["licenses"] := Dir, ["licenses", "LICENSE"] := File(licence)];
    assert Parent(["licenses", "LICENSE"]) == ["licenses"];
    t
  }

  function DepA(): Dep
  {
    Dep(Ref("A", "A/1.0"), None)
  }

  function DepB(text: seq<bv8>, licence: seq<bv8>): Dep
  {
    Dep(Ref("B", "B/1.0"), Some(PackageB(text, licence)))
  }

  function ScenarioGraph(text: seq<bv8>, licence: seq<bv8>): Graph
  {
    Graph([], [DepA(), DepB(text, licence)])
  }

  /** The tree after both contexts are entered: `build/` and `host/`. */
  function Entered(): Tree
  {
    map[["build"] := Dir, ["host"] := Dir]
  }

  lemma HostNotBlocked(t: Tree)
    requires ["host"] in t && t[["host"]] == Dir
    ensures Blocking(t, ["host"]) == {}
  {
    forall q
      ensures q !in Blocking(t, ["host"])
    {
      if 1 <= |q| && IsPrefix(q, ["host"]) {
        assert q == ["host"];
      }
    }
  }

  /** The filter keeps `file.txt` and drops the licence folder. */
  lemma FilterOfB(text: seq<bv8>, licence: seq<bv8>)
    ensures Filter(PackageB(text, licence), IgnoredNames) == map[["file.txt"] := File(text)]
  {
    var f := Filter(PackageB(text, licence), IgnoredNames);
    assert ["licenses"][0] in IgnoredNames && ["licenses", "LICENSE"][0] in IgnoredNames;
    assert f.Keys == {["file.txt"]};
  }

  lemma NoClashInHost(t: Tree, text: seq<bv8>)
    requires ["host", "file.txt"] !in t
    ensures Clashes(t, map[["file.txt"] := File(text)], ["host"]) == {}
  {
    var f := map[["file.txt"] := File(text)];
    forall q
      ensures q !in Clashes(t, f, ["host"])
    {
      if IsPrefix(["host"], q) && q[1..] in f {
        assert q == ["host", "file.txt"];
      }
    }
  }

  /** The tree after `B`'s main merge. */
  function AfterMain(text: seq<bv8>): Tree
  {
    map[["build"] := Dir, ["host"] := Dir, ["host", "file.txt"] := File(text)]
  }

  /** The tree after `B`'s licence copy. */
  function AfterLicence(text: seq<bv8>, licence: seq<bv8>): Tree
  {
    map[["build"] := Dir, ["host"] := Dir, ["host", "file.txt"] := File(text),
        ["host", "licenses"] := Dir, ["host", "licenses", "B"] := Dir,
        ["host", "licenses", "B", "LICENSE"] := File(licence)]
  }

  lemma MakeHost()
    ensures MakeDirs(["host"]) == map[["host"] := Dir]
  {
    forall q | q in MakeDirs(["host"]) ensures q == ["host"] { }
  }

  lemma ShiftIntoHost(text: seq<bv8>)
    ensures Shift(map[["file.txt"] := File(text)], ["host"]) == map[["host", "file.txt"] := File(text)]
  {
    var f := map[["file.txt"] := File(text)];
    assert ["host", "file.txt"][1..] == ["file.txt"];
    forall q | q in Shift(f, ["host"]) ensures q == ["host", "file.txt"] {
      assert q == q[..1] + q[1..];
    }
  }

  /** The main merge of `B` into `host/` writes `file.txt` and nothing of
      its licence folder. */
  lemma MainMergeOfB(text: seq<bv8>, licence: seq<bv8>, fault: Option<string>)
    requires fault.None?
    ensures CopyTree(Entered(), Directory(PackageB(text, licence)), ["host"], IgnoredNames, fault)
            == Success(AfterMain(text))
  {
    HostNotBlocked(Entered());
    FilterOfB(text, licence);
    NoClashInHost(Entered(), text);
    MakeHost();
    ShiftIntoHost(text);
    MainUnion(text);
    CopyTreeSucceeds(Entered(), PackageB(text, licence), ["host"], IgnoredNames, fault, AfterMain(text));
  }

  lemma MainUnion(text: seq<bv8>)
    ensures Entered() + map[["host"] := Dir] + map[["host", "file.txt"] := File(text)] == AfterMain(text)
  {
    var m := Entered() + map[["host"] := Dir] + map[["host", "file.txt"] := File(text)];
    assert m.Keys == AfterMain(text).Keys;
  }

  /** What `B`'s licence folder holds, relative to it. */
  lemma LicencesOfB(text: seq<bv8>, licence: seq<bv8>)
    ensures Below(PackageB(text, licence), LicencesDir) == map[["LICENSE"] := File(licence)]
  {
    var b := Below(PackageB(text, licence), LicencesDir);
    assert [LicencesDir] + ["LICENSE"] == ["licenses", "LICENSE"];
    forall p | p in b ensures p == ["LICENSE"] {
      OnlyLicenceBelow(text, licence, p);
    }
    assert b.Keys == {["LICENSE"]};
  }

  lemma OnlyLicenceBelow(text: seq<bv8>, licence: seq<bv8>, p: Path)
    requires p != [] && [LicencesDir] + p in PackageB(text, licence)
    ensures p == ["LICENSE"]
  {
    var q := [LicencesDir] + p;
    assert q != ["licenses"] && q != ["file.txt"];
    assert q[1..] == p;
  }

  lemma LicenceDestinationFree(text: seq<bv8>)
    ensures Blocking(AfterMain(text), ["host", "licenses", "B"]) == {}
  {
    var dst := ["host", "licenses", "B"];
    forall q
      ensures q !in Blocking(AfterMain(text), dst)
    {
      if 1 <= |q| && IsPrefix(q, dst) {
        assert q == dst[..|q|];
        assert q == ["host"] || q == ["host", "licenses"] || q == dst;
      }
    }
  }

  lemma NoLicenceClash(text: seq<bv8>, licence: seq<bv8>)
    ensures Clashes(AfterMain(text), map[["LICENSE"] := File(licence)], ["host", "licenses", "B"]) == {}
  {
    var f := map[["LICENSE"] := File(licence)];
    var dst := ["host", "licenses", "B"];
    forall q
      ensures q !in Clashes(AfterMain(text), f, dst)
    {
      if IsPrefix(dst, q) && q[3..] in f {
        assert q == q[..3] + q[3..];
        assert q == ["host", "licenses", "B", "LICENSE"];
      }
    }
  }

  lemma MakeThreeDirs(a: Name, b: Name, c: Name)
    ensures MakeDirs([a, b, c]) == map[[a] := Dir, [a, b] := Dir, [a, b, c] := Dir]
  {
    var dst := [a, b, c];
    var m := map[[a] := Dir, [a, b] := Dir, [a, b, c] := Dir];
    assert dst[..1] == [a] && dst[..2] == [a, b] && dst[..3] == dst;
    forall q
      ensures q in MakeDirs(dst) <==> q in m
    {
      if q in MakeDirs(dst) {
        assert q == dst[..|q|];
      }
    }
    assert MakeDirs(dst).Keys == m.Keys;
  }

  lemma MakeLicenceDest()
    ensures MakeDirs(["host", "licenses", "B"])
            == map[["host"] := Dir, ["host", "licenses"] := Dir, ["host", "licenses", "B"] := Dir]
  {
    MakeThreeDirs("host", "licenses", "B");
  }

  lemma ShiftIntoLicenceDest(licence: seq<bv8>)
    ensures Shift(map[["LICENSE"] := File(licence)], ["host", "licenses", "B"])
            == map[["host", "licenses", "B", "LICENSE"] := File(licence)]
  {
    var f := map[["LICENSE"] := File(licence)];
    var dst := ["host", "licenses", "B"];
    assert ["host", "licenses", "B", "LICENSE"][3..] == ["LICENSE"];
    forall q | q in Shift(f, dst) ensures q == ["host", "licenses", "B", "LICENSE"] {
      assert q == q[..3] + q[3..];
    }
  }

  /** The licence copy of `B` places `LICENSE` under `host/licenses/B/`. */
  lemma LicenceCopyOfB(text: seq<bv8>, licence: seq<bv8>, fault: Option<string>)
    requires fault.None?
    ensures CopyTree(AfterMain(text), Directory(map[["LICENSE"] := File(licence)]), ["host", "licenses", "B"], {}, fault)
            == Success(AfterLicence(text, licence))
  {
    var f := map[["LICENSE"] := File(licence)];
    LicenceDestinationFree(text);
    FilterNothing(f);
    NoLicenceClash(text, licence);
    MakeLicenceDest();
    ShiftIntoLicenceDest(licence);
    LicenceUnion(text, licence);
    CopyTreeSucceeds(AfterMain(text), f, ["host", "licenses", "B"], {}, fault, AfterLicence(text, licence));
  }

  lemma LicenceUnion(text: seq<bv8>, licence: seq<bv8>)
    ensures AfterMain(text)
            + map[["host"] := Dir, ["host", "licenses"] := Dir, ["host", "licenses", "B"] := Dir]
            + map[["host", "licenses", "B", "LICENSE"] := File(licence)]
            == AfterLicence(text, licence)
  {
    var m := AfterMain(text)
             + map[["host"] := Dir, ["host", "licenses"] := Dir, ["host", "licenses", "B"] := Dir]
             + map[["host", "licenses", "B", "LICENSE"] := File(licence)];
    assert m.Keys == AfterLicence(text, licence).Keys;
  }

  /** Both copies of `B` succeed and `B` gets its deploy folder. */
  lemma MergeOfB(text: seq<bv8>, licence: seq<bv8>, env: Env, r: Run)
    requires forall call :: env.osFault(call).None?
    requires r.tree == Entered()
    ensures MergeDep(r, DepId(Host, 1), DepB(text, licence), env)
            == Continue(Run(AfterLicence(text, licence), r.folders[DepId(Host, 1) := SubdirText(env, Host)], r.log))
  {
    var id := DepId(Host, 1);
    var dep := DepB(text, licence);
    MainMergeOfB(text, licence, env.osFault(MainMerge(id)));
    var r2 := r.(tree := AfterMain(text));
    assert GuardedCopy(r, Directory(PackageB(text, licence)), ["host"], IgnoredNames, dep, MainMerge(id), env) == Continue(r2);
    LicencesOfB(text, licence);
    assert LicenceSource(PackageB(text, licence)) == Some(Directory(map[["LICENSE"] := File(licence)]));
    LicenceCopyOfB(text, licence, env.osFault(LicenceCopy(id)));
    var r3 := r2.(tree := AfterLicence(text, licence));
    assert LicenceStep(r2, PackageB(text, licence), id, dep, env) == Continue(r3);
  }

  /** With no copy failing, the deployment of the scenario succeeds: the
      tree holds `build/`, `host/file.txt` and `host/licenses/B/LICENSE`
      with the directories leading to them, `B` alone gets a deploy folder,
      and the log holds the skip line for `A` and then the success line. */
  lemma ScenarioDeployment(text: seq<bv8>, licence: seq<bv8>, env: Env, folders: map<DepId, string>, log: seq<LogLine>)
    requires forall call :: env.osFault(call).None?
    ensures DeployResult(ScenarioGraph(text, licence), env, folders, log)
            == Deployment(Run(AfterLicence(text, licence),
                              folders[DepId(Host, 1) := SubdirText(env, Host)],
                              log + [ErrorLine(SkipMessage(DepA().ref)), SuccessLine(SuccessMessage(env))]),
                          Deployed)
  {
    var g := ScenarioGraph(text, licence);
    var r0 := Run(map[], folders, log);
    var e0 := EnterContext(r0, Build);
    assert MergeContext(e0, Build, g.build, 0, env) == Continue(e0);
    ContextsContinue(r0, g, env, 0, e0);
    var e1 := EnterContext(e0, Host);
    assert e1.tree == Entered();
    var r1 := e1.(log := log + [ErrorLine(SkipMessage(DepA().ref))]);
    assert MergeDep(e1, DepId(Host, 0), DepA(), env) == Continue(r1);
    ContextContinues(e1, Host, g.host, 0, env, r1);
    MergeOfB(text, licence, env, r1);
    var r4 := Run(AfterLicence(text, licence), folders[DepId(Host, 1) := SubdirText(env, Host)], r1.log);
    ContextContinues(r1, Host, g.host, 1, env, r4);
    assert MergeContext(r4, Host, g.host, 2, env) == Continue(r4);
    ContextsContinue(e0, g, env, 1, r4);
    assert MergeContexts(r4, g, env, 2) == Continue(r4);
    DeployFinishes(g, env, folders, log, r4);
  }

  /** The scenario's merged tree seen through the general theorems: `A`
      leaves nothing, `B`'s metadata stays out of the main merge. */
  lemma ScenarioLayout(text: seq<bv8>, licence: seq<bv8>, env: Env, folders: map<DepId, string>, log: seq<LogLine>)
    requires forall call :: env.osFault(call).None?
    ensures Lookup(DeployResult(ScenarioGraph(text, licence), env, folders, log).run.tree, ["host", "file.txt"])
            == Some(File(text))
    ensures Lookup(DeployResult(ScenarioGraph(text, licence), env, folders, log).run.tree, ["host", "licenses", "B", "LICENSE"])
            == Some(File(licence))
    ensures ["host", "LICENSE"] !in DeployResult(ScenarioGraph(text, licence), env, folders, log).run.tree
  {
    var g := ScenarioGraph(text, licence);
    ScenarioDeployment(text, licence, env, folders, log);
    assert ["file.txt"] in PackageB(text, licence);
    LastProviderWins(g, env, folders, log, Host, 1, ["file.txt"]);
    assert ["licenses", "LICENSE"] == [LicencesDir] + ["LICENSE"];
    LicencesPlaced(g, env, folders, log, Host, 1, ["LICENSE"]);
    assert ["host", "licenses", "B"] + ["LICENSE"] == ["host", "licenses", "B", "LICENSE"];
    assert ["LICENSE"] !in PackageB(text, licence);
    UnprovidedPathAbsent(g, env, folders, log, Host, ["LICENSE"]);
  }
}
