/**
 * `duckdb_demo.py`: the dbt demo project is downloaded as a zip archive
 * once and cached under `cwd/dbt/dbt_demo`; a DuckDB profile is written
 * into the project directory, and dbt runs with that directory as both
 * project and profiles directory.
 */
module DuckDbDemo {
  import opened Wrappers
  import opened Text
  import opened FileSystem
  import DbtProject

  /** The file whose parent directory is the dbt project root. */
  const MarkerName := "dbt_project.yml"

  /** `cwd/dbt/dbt_demo`, where the project is kept. */
  function ProjectDir(cwd: Path): Path {
    Child(DbtProject.DbtDir(cwd), "dbt_demo")
  }

  /** `cwd/dbt/_tmp_extract`, where the archive is unpacked. */
  function StagingDir(cwd: Path): Path {
    Child(DbtProject.DbtDir(cwd), "_tmp_extract")
  }

  /** The project directory and the staging directory lie apart. */
  lemma ProjectAndStagingApart(cwd: Path, q: Path)
    ensures Under(q, StagingDir(cwd)) ==> !Under(q, ProjectDir(cwd))
  {
    if Under(q, StagingDir(cwd)) {
      assert q[|cwd| + 1] == "_tmp_extract";
    }
  }

  /** A path of the archive that the recursive glob for `dbt_project.yml` matches. */
  predicate IsMarker(m: Path) {
    m != [] && m[|m| - 1] == MarkerName
  }

  /** The first candidate the glob yields, with the glob's order taken to be
      the archive's member order. */
  function FirstMarker(members: seq<Path>): (r: Option<nat>)
    ensures r.Some? ==> r.value < |members| && IsMarker(members[r.value])
    ensures r.Some? ==> forall j :: 0 <= j < r.value ==> !IsMarker(members[j])
    ensures r.None? ==> forall j :: 0 <= j < |members| ==> !IsMarker(members[j])
  {
    if members == [] then None
    else if IsMarker(members[0]) then Some(0)
    else match FirstMarker(members[1..])
      case None => None
      case Some(i) => Some(i + 1)
  }

  /** Every path's ancestors exist, as on a real filesystem. */
  predicate HasAncestors(ps: set<Path>) {
    forall q, k :: q in ps && 0 <= k <= |q| ==> q[..k] in ps
  }

  datatype BuildError =
    | DownloadFailed                 // `urlopen` or the zip reader raised
    | MarkerNotFound                 // `ValueError("dbt_project.yml not found")`
    | StagingMissing(path: Path)     // the final `rmtree` found no staging directory

  /** What `build_dbt_demo` returns or raises, and the paths afterwards. */
  datatype Build = Build(result: Result<Path, BuildError>, paths: set<Path>)

  /**
   * `build_dbt_demo` over the paths that exist beforehand. `archive` is the
   * list of member paths of the downloaded zip, or None when the download
   * or the zip reader fails.
   */
  function BuildState(paths: set<Path>, cwd: Path, archive: Option<seq<Path>>): Build {
    var projectDir, staging := ProjectDir(cwd), StagingDir(cwd);
    var created := paths + {DbtProject.DbtDir(cwd)};
    if projectDir in created then Build(Success(projectDir), created)
    else
      var cleared := if staging in created then WithoutTree(created, staging) else created;
      match archive
      case None => Build(Failure(DownloadFailed), cleared)
      case Some(members) =>
        var extracted := cleared + Extracted(staging, members);
        match FirstMarker(members)
        case None => Build(Failure(MarkerNotFound), extracted)
        case Some(i) =>
          var moved := Moved(extracted, staging + Parent(members[i]), projectDir);
          if staging in moved then Build(Success(projectDir), WithoutTree(moved, staging))
          else Build(Failure(StagingMissing(staging)), moved)
  }

  /**
   * `build_dbt_demo`: creates `cwd/dbt`; a cached project is returned as it
   * is; otherwise a leftover staging directory is removed, the archive is
   * extracted into it, the parent of the first `dbt_project.yml` is moved to
   * `cwd/dbt/dbt_demo`, and the staging directory is removed.
   */
  method BuildDbtDemo(disk: Disk, cwd: Path, archive: Option<seq<Path>>)
    returns (r: Result<Path, BuildError>)
    modifies disk
    ensures Build(r, disk.paths) == BuildState(old(disk.paths), cwd, archive)
  {
    disk.Create(DbtProject.DbtDir(cwd));
    var projectDir := ProjectDir(cwd);
    var cached := disk.Exists(projectDir);
    if cached {
      return Success(projectDir);
    }
    var staging := StagingDir(cwd);
    var leftover := disk.Exists(staging);
    if leftover {
      var _ := disk.RemoveTree(staging);
    }
    if archive.None? {
      return Failure(DownloadFailed);
    }
    var members := archive.value;
    disk.ExtractAll(staging, members);
    var first := FirstMarker(members);
    if first.None? {
      return Failure(MarkerNotFound);
    }
    var marker := members[first.value];
    ExtractedPrefix(staging, members, first.value, |marker| - 1);
    var moved := disk.Move(staging + Parent(marker), projectDir);
    assert moved;
    var removed := disk.RemoveTree(staging);
    if !removed {
      return Failure(StagingMissing(staging));
    }
    r := Success(projectDir);
  }

  /** `cwd/dbt` exists after every build, and a build that succeeds returns
      `cwd/dbt/dbt_demo`, which then exists. */
  lemma BuildLeavesProject(paths: set<Path>, cwd: Path, archive: Option<seq<Path>>)
    ensures DbtProject.DbtDir(cwd) in BuildState(paths, cwd, archive).paths
    ensures BuildState(paths, cwd, archive).result.Success? ==>
              && BuildState(paths, cwd, archive).result.value == ProjectDir(cwd)
              && ProjectDir(cwd) in BuildState(paths, cwd, archive).paths
  {
    var projectDir, staging, dbt := ProjectDir(cwd), StagingDir(cwd), DbtProject.DbtDir(cwd);
    var created := paths + {dbt};
    assert !Under(dbt, staging);
    if projectDir !in created && archive.Some? {
      var members := archive.value;
      var cleared := if staging in created then WithoutTree(created, staging) else created;
      var extracted := cleared + Extracted(staging, members);
      match FirstMarker(members)
      case None =>
      case Some(i) =>
        var src := staging + Parent(members[i]);
        ExtractedPrefix(staging, members, i, |members[i]| - 1);
        assert src in extracted;
        assert !Under(dbt, src);
        assert Under(src, src) && projectDir + src[|src|..] == projectDir;
        var moved := Moved(extracted, src, projectDir);
        assert projectDir in moved;
        ProjectAndStagingApart(cwd, projectDir);
        assert !Under(dbt, projectDir);
    }
  }

  /** A cached project is returned and nothing is downloaded, extracted,
      moved or deleted. */
  lemma CachedProjectReused(paths: set<Path>, cwd: Path, archive: Option<seq<Path>>)
    requires ProjectDir(cwd) in paths
    ensures BuildState(paths, cwd, archive) == Build(Success(ProjectDir(cwd)), paths + {DbtProject.DbtDir(cwd)})
  {
  }

  /** Whatever lies below the staging directory afterwards was extracted
      from this archive: a leftover staging directory never survives. */
  lemma StaleStagingDiscarded(paths: set<Path>, cwd: Path, archive: Option<seq<Path>>, q: Path)
    requires HasAncestors(paths)
    requires ProjectDir(cwd) !in paths
    requires q in BuildState(paths, cwd, archive).paths && Under(q, StagingDir(cwd))
    ensures archive.Some? && q in Extracted(StagingDir(cwd), archive.value)
  {
    var staging := StagingDir(cwd);
    var created := paths + {DbtProject.DbtDir(cwd)};
    var cleared := if staging in created then WithoutTree(created, staging) else created;
    assert q !in cleared by {
      if q in paths {
        assert q[..|staging|] in paths;
      }
    }
    if archive.Some? {
      var members := archive.value;
      var extracted := cleared + Extracted(staging, members);
      match FirstMarker(members)
      case None =>
      case Some(i) =>
        var root := staging + Parent(members[i]);
        var moved := Moved(extracted, root, ProjectDir(cwd));
        ProjectAndStagingApart(cwd, q);
        MovedParts(extracted, root, ProjectDir(cwd), q);
    }
  }

  /** Without a `dbt_project.yml` in the archive the build fails, the
      project directory is not created, and the staging directory is left
      behind. */
  lemma MissingMarkerFails(paths: set<Path>, cwd: Path, members: seq<Path>)
    requires ProjectDir(cwd) !in paths
    requires forall k :: 0 <= k < |members| ==> !IsMarker(members[k])
    ensures var b := BuildState(paths, cwd, Some(members));
      && b.result == Failure(MarkerNotFound)
      && ProjectDir(cwd) !in b.paths
      && (members != [] ==> StagingDir(cwd) in b.paths)
  {
    var b := BuildState(paths, cwd, Some(members));
    assert FirstMarker(members) == None;
    ProjectAndStagingApart(cwd, ProjectDir(cwd));
  }

  /** On a fresh build whose first `dbt_project.yml` lies in a directory of
      the archive, that directory's contents end up under the project
      directory, the build succeeds, and no staging path remains. */
  lemma FreshBuildSucceeds(paths: set<Path>, cwd: Path, members: seq<Path>, i: nat, k: nat)
    requires ProjectDir(cwd) !in paths
    requires FirstMarker(members) == Some(i) && |members[i]| > 1
    requires k < |members| && Under(members[k], Parent(members[i]))
    ensures var b := BuildState(paths, cwd, Some(members));
      && b.result == Success(ProjectDir(cwd))
      && ProjectDir(cwd) + members[k][|members[i]| - 1..] in b.paths
      && forall q :: q in b.paths ==> !Under(q, StagingDir(cwd))
  {
    var staging, projectDir := StagingDir(cwd), ProjectDir(cwd);
    var created := paths + {DbtProject.DbtDir(cwd)};
    var cleared := if staging in created then WithoutTree(created, staging) else created;
    var extracted := cleared + Extracted(staging, members);
    var root := staging + Parent(members[i]);
    var moved := Moved(extracted, root, projectDir);
    assert staging in extracted;
    assert !Under(staging, root);
    assert staging in moved;
    var p := staging + members[k];
    assert p in extracted;
    assert Under(p, root);
    assert p[|root|..] == members[k][|members[i]| - 1..];
    var target := projectDir + members[k][|members[i]| - 1..];
    assert target in moved;
    ProjectAndStagingApart(cwd, target);
  }

  /** On a fresh build, `dbt/dbt_demo` holds exactly what was below the
      project root in the archive, re-rooted there, and nothing else. */
  lemma FreshBuildProjectContents(paths: set<Path>, cwd: Path, members: seq<Path>, i: nat, q: Path)
    requires HasAncestors(paths)
    requires ProjectDir(cwd) !in paths
    requires FirstMarker(members) == Some(i)
    requires q in BuildState(paths, cwd, Some(members)).paths && Under(q, ProjectDir(cwd))
    ensures var root := StagingDir(cwd) + Parent(members[i]);
      exists p :: p in Extracted(StagingDir(cwd), members) && Under(p, root) && q == ProjectDir(cwd) + p[|root|..]
  {
    var staging, projectDir, dbt := StagingDir(cwd), ProjectDir(cwd), DbtProject.DbtDir(cwd);
    var created := paths + {dbt};
    var cleared := if staging in created then WithoutTree(created, staging) else created;
    var extracted := cleared + Extracted(staging, members);
    var root := staging + Parent(members[i]);
    var moved := Moved(extracted, root, projectDir);
    assert q in moved;
    assert q !in created by {
      assert !Under(dbt, projectDir);
      AbsentHasNothingBelow(paths, projectDir, q);
    }
    ProjectAndStagingApart(cwd, q);
    assert q !in WithoutTree(extracted, root);
    var p :| p in extracted && Under(p, root) && q == projectDir + p[|root|..];
    assert Under(p, staging) by {
      assert p[..|staging|] == root[..|staging|];
    }
    assert p !in cleared by {
      assert !Under(dbt, staging);
      if staging !in created {
        AbsentHasNothingBelow(paths, staging, p);
      }
    }
  }

  /** Every build, cached or fresh, failed or not, leaves each path outside
      the staging and project directories as it was, with `cwd/dbt` added. */
  lemma BuildKeepsOthers(paths: set<Path>, cwd: Path, archive: Option<seq<Path>>, q: Path)
    requires !Under(q, StagingDir(cwd)) && !Under(q, ProjectDir(cwd))
    ensures q in BuildState(paths, cwd, archive).paths <==> q in paths + {DbtProject.DbtDir(cwd)}
  {
    var staging, projectDir := StagingDir(cwd), ProjectDir(cwd);
    var created := paths + {DbtProject.DbtDir(cwd)};
    var cleared := if staging in created then WithoutTree(created, staging) else created;
    if projectDir !in created && archive.Some? {
      var members := archive.value;
      var extracted := cleared + Extracted(staging, members);
      match FirstMarker(members)
      case None =>
      case Some(i) =>
        var root := staging + Parent(members[i]);
        var moved := Moved(extracted, root, projectDir);
        assert !Under(q, root) by {
          if |root| <= |q| {
            assert q[..|staging|] == q[..|root|][..|staging|];
          }
        }
        if q in moved {
          MovedParts(extracted, root, projectDir, q);
        }
    }
  }

  /** On a disk whose paths have their ancestors, nothing lies below a path
      that does not exist. */
  lemma AbsentHasNothingBelow(ps: set<Path>, d: Path, q: Path)
    requires HasAncestors(ps) && d !in ps
    ensures Under(q, d) ==> q !in ps
  {
    if Under(q, d) {
      assert q[..|d|] == d;
    }
  }

  /** A `dbt_project.yml` at the top of the archive makes the staging
      directory itself the project root: it is renamed to the project
      directory, and the final `rmtree` of the staging directory fails. */
  lemma TopLevelMarkerFails(paths: set<Path>, cwd: Path, members: seq<Path>, i: nat)
    requires ProjectDir(cwd) !in paths
    requires FirstMarker(members) == Some(i) && members[i] == [MarkerName]
    ensures var b := BuildState(paths, cwd, Some(members));
      && b.result == Failure(StagingMissing(StagingDir(cwd)))
      && ProjectDir(cwd) + [MarkerName] in b.paths
  {
    var staging, projectDir := StagingDir(cwd), ProjectDir(cwd);
    var created := paths + {DbtProject.DbtDir(cwd)};
    var cleared := if staging in created then WithoutTree(created, staging) else created;
    var extracted := cleared + Extracted(staging, members);
    assert Parent(members[i]) == [];
    assert staging + Parent(members[i]) == staging;
    var moved := Moved(extracted, staging, projectDir);
    assert staging !in moved by {
      if staging in moved {
        ProjectAndStagingApart(cwd, staging);
        MovedParts(extracted, staging, projectDir, staging);
      }
    }
    var p := staging + members[i];
    assert p in extracted;
    assert p[|staging|..] == [MarkerName];
  }

  /** `cwd/data/demo.duckdb`, the database the profile points at. */
  function DemoDatabase(cwd: Path): Path {
    Child(DbtProject.DataDir(cwd), "demo.duckdb")
  }

  /** The lines of the profile `create_dbt_profiles` writes. */
  function DemoProfileLines(db: Path): seq<string> {
    [ "demo:",
      "  outputs:",
      "    dev:",
      "      type: duckdb",
      "      path: " + Render(db),
      "      threads: 1",
      "  target: dev" ]
  }

  /** The profile text: the lines joined with no newline after the last. */
  function DemoProfileText(db: Path): string {
    Join(DemoProfileLines(db), '\n')
  }

  /** Read back line by line, the profile is exactly its seven lines: it
      ends with `  target: dev` and has no trailing newline. */
  lemma DemoProfileReadsBack(db: Path)
    requires '\n' !in Render(db)
    ensures Split(DemoProfileText(db), '\n') == DemoProfileLines(db)
  {
    var ls := DemoProfileLines(db);
    assert '\n' !in ls[4];
    SplitJoin(ls, '\n');
  }

  /** The profile text ends with the target line itself. */
  lemma DemoProfileEndsWithTarget(db: Path)
    ensures var s := DemoProfileText(db);
      |s| >= 13 && s[|s| - 13..] == "  target: dev"
  {
    JoinEndsWithLast(DemoProfileLines(db), '\n');
  }

  /** `create_dbt_profiles`: creates `cwd/data` and writes the profile to
      `projectDir/profiles.yml`. */
  method CreateDbtProfiles(disk: Disk, cwd: Path, projectDir: Path) returns (profile: WrittenFile)
    modifies disk
    ensures profile == WrittenFile(Child(projectDir, "profiles.yml"), DemoProfileText(DemoDatabase(cwd)))
    ensures disk.paths == old(disk.paths) + {DbtProject.DataDir(cwd), profile.path}
  {
    disk.Create(DbtProject.DataDir(cwd));
    profile := WrittenFile(Child(projectDir, "profiles.yml"), DemoProfileText(DemoDatabase(cwd)));
    disk.Create(profile.path);
  }

  /** `run_dbt_commands`: the project directory is also the profiles
      directory; one invocation per command, in order. */
  method RunDbtCommands(commands: seq<string>, projectDir: Path) returns (trace: seq<DbtProject.Invocation>)
    ensures trace == DbtProject.Invocations(commands, projectDir, projectDir)
  {
    trace := DbtProject.RunDbtCommands(commands, projectDir, projectDir);
  }

  /** The commands `dbt_flow` runs, one `run_dbt_commands` call each. */
  const FlowCommands := ["deps", "seed", "run", "test"]

  /** The invocations of the flow once the project is in place. */
  function FlowTrace(projectDir: Path): seq<DbtProject.Invocation> {
    DbtProject.Invocations(FlowCommands, projectDir, projectDir)
  }

  /** The flow invokes `deps`, `seed`, `run` and `test`, in that order, each
      as a single argument, with the project directory as profiles directory. */
  lemma FlowTraceOrder(projectDir: Path)
    ensures FlowTrace(projectDir) ==
      [ DbtProject.Invocation(["deps"], projectDir, projectDir),
        DbtProject.Invocation(["seed"], projectDir, projectDir),
        DbtProject.Invocation(["run"], projectDir, projectDir),
        DbtProject.Invocation(["test"], projectDir, projectDir) ]
  {
    DbtProject.SingleWordInvocations(FlowCommands, projectDir, projectDir);
  }

  /**
   * `dbt_flow`: build (or reuse) the project, write its profile, then run
   * `deps`, `seed`, `run` and `test` in that order. A failing build raises
   * before any profile is written or command run.
   */
  method DbtFlow(disk: Disk, cwd: Path, archive: Option<seq<Path>>)
    returns (r: Result<Path, BuildError>, profile: Option<WrittenFile>, trace: seq<DbtProject.Invocation>)
    modifies disk
    ensures var b := BuildState(old(disk.paths), cwd, archive);
      && r == b.result
      && (r.Failure? ==> profile == None && trace == [] && disk.paths == b.paths)
      && (r.Success? ==>
           && profile == Some(WrittenFile(Child(r.value, "profiles.yml"), DemoProfileText(DemoDatabase(cwd))))
           && disk.paths == b.paths + {DbtProject.DataDir(cwd), Child(r.value, "profiles.yml")}
           && trace == FlowTrace(r.value))
  {
    r := BuildDbtDemo(disk, cwd, archive);
    profile, trace := None, [];
    if r.Failure? {
      return;
    }
    var projectDir := r.value;
    var written := CreateDbtProfiles(disk, cwd, projectDir);
    profile := Some(written);
    var deps := RunDbtCommands([FlowCommands[0]], projectDir);
    var seed := RunDbtCommands([FlowCommands[1]], projectDir);
    var run := RunDbtCommands([FlowCommands[2]], projectDir);
    var test := RunDbtCommands([FlowCommands[3]], projectDir);
    trace := deps + seed + run + test;
    var c := FlowCommands;
    DbtProject.InvocationsAppend([c[0]], [c[1]], projectDir, projectDir);
    DbtProject.InvocationsAppend([c[0], c[1]], [c[2]], projectDir, projectDir);
    DbtProject.InvocationsAppend([c[0], c[1], c[2]], [c[3]], projectDir, projectDir);
    assert [c[0], c[1], c[2]] + [c[3]] == c;
  }
}
