/**
 * `tuva_demo.py`: the DuckDB profile for the Tuva demo project, the
 * verification report read back from the database, and how the flow turns
 * its optional string arguments into paths. Cloning, the `dbt_project.yml`
 * rewrite and the command runner are shared with the Snowflake flow and
 * live in DbtProject.
 */
module TuvaDemo {
  import opened Wrappers
  import opened Text
  import opened FileSystem
  import DbtProject

  /** The directory `clone_repository` defaults to under `cwd/dbt`. */
  const DefaultCloneDir := "tuva_demo"

  /** The database path: the one given, else `cwd/data/tuva_demo.duckdb`. */
  function DatabasePath(cwd: Path, dbPath: Option<Path>): (db: Path)
    ensures dbPath.Some? ==> db == dbPath.value
    ensures dbPath.None? ==> db == cwd + ["data", "tuva_demo.duckdb"]
  {
    match dbPath
    case Some(p) => p
    case None => Child(DbtProject.DataDir(cwd), "tuva_demo.duckdb")
  }

  /** The lines of the `profiles.yml` written for the DuckDB database `db`. */
  function DuckDbProfileLines(db: Path): seq<string> {
    [ "tuva_demo:",
      "  outputs:",
      "    dev:",
      "      type: duckdb",
      "      path: " + Render(db),
      "      threads: 4",
      "      extensions:",
      "        - httpfs",
      "  target: dev" ]
  }

  /** The text of that `profiles.yml`: every line ends with a newline. */
  function DuckDbProfileText(db: Path): string {
    Unlines(DuckDbProfileLines(db))
  }

  /** Read back line by line, the profile is exactly the nine lines above,
      the `path:` line holding the absolute database path, and nothing
      after the final newline. */
  lemma DuckDbProfileReadsBack(db: Path)
    requires '\n' !in Render(db)
    ensures Split(DuckDbProfileText(db), '\n') == DuckDbProfileLines(db) + [""]
  {
    var ls := DuckDbProfileLines(db);
    assert '\n' !in ls[4];
    UnlinesReadsBack(ls);
  }

  /**
   * `setup_duckdb_profile`: creates `cwd/data`, the database file and
   * `cwd/config`, and writes `cwd/config/profiles.yml`. Returns the database
   * path and the profiles directory.
   */
  method SetupDuckDbProfile(disk: Disk, cwd: Path, dbPath: Option<Path>)
    returns (db: Path, profilesDir: Path, profile: WrittenFile)
    modifies disk
    ensures db == DatabasePath(cwd, dbPath)
    ensures profilesDir == DbtProject.ConfigDir(cwd)
    ensures profile == WrittenFile(Child(profilesDir, "profiles.yml"), DuckDbProfileText(db))
    ensures disk.paths == old(disk.paths) + {DbtProject.DataDir(cwd), db, profilesDir, profile.path}
  {
    disk.Create(DbtProject.DataDir(cwd));
    db := DatabasePath(cwd, dbPath);
    disk.Create(db);
    profilesDir := DbtProject.ConfigDir(cwd);
    disk.Create(profilesDir);
    profile := WrittenFile(Child(profilesDir, "profiles.yml"), DuckDbProfileText(db));
    disk.Create(profile.path);
  }

  /** The outcome of `SELECT COUNT(*)` on one table. */
  datatype CountResult = Counted(rows: nat) | QueryFailed(message: string)

  /** What the report records for one table. */
  datatype TableCount = Rows(rows: nat) | ErrorText(text: string)

  function Recorded(c: CountResult): (t: TableCount)
    ensures t.Rows? <==> c.Counted?
    ensures t.Rows? ==> t.rows == c.rows
  {
    match c
    case Counted(n) => Rows(n)
    case QueryFailed(m) => ErrorText("Error: " + m)
  }

  datatype Report = Report(tablesCreated: nat, tableList: seq<string>, tableCounts: map<string, TableCount>)

  /**
   * `verify_results`: `tables` is what `SHOW TABLES` listed and `count` the
   * outcome of the count query on each table. Every listed table gets an
   * entry; a failed count is recorded as `"Error: " + message` and the loop
   * goes on to the next table.
   */
  method VerifyResults(tables: seq<string>, count: string -> CountResult) returns (report: Report)
    ensures report.tablesCreated == |tables|
    ensures report.tableList == tables
    ensures report.tableCounts.Keys == set t | t in tables
    ensures forall t :: t in report.tableCounts ==> report.tableCounts[t] == Recorded(count(t))
  {
    var counts: map<string, TableCount> := map[];
    for i := 0 to |tables|
      invariant counts.Keys == set t | t in tables[..i]
      invariant forall t :: t in counts ==> counts[t] == Recorded(count(t))
    {
      match count(tables[i])
      case Counted(n) =>
        counts := counts[tables[i] := Rows(n)];
      case QueryFailed(m) =>
        counts := counts[tables[i] := ErrorText("Error: " + m)];
    }
    assert tables[..|tables|] == tables;
    report := Report(|tables|, tables, counts);
  }

  /** The flow passes its string arguments on as paths only when they are
      non-empty; `Path(s)` is taken relative to `cwd`. */
  function FlowPathArg(cwd: Path, arg: Option<string>): (p: Option<Path>)
    ensures p.None? <==> (arg.None? || arg.value == "")
    ensures p.Some? ==> p.value == Absolute(cwd, arg.value)
  {
    if arg.Some? && arg.value != "" then Some(Absolute(cwd, arg.value)) else None
  }

  /** An empty or absent `target_dir` clones to `cwd/dbt/tuva_demo`; any
      other clones to the path it names. */
  lemma DefaultTargetDir(cwd: Path, targetDir: Option<string>)
    ensures var t := DbtProject.CloneTarget(cwd, FlowPathArg(cwd, targetDir), DefaultCloneDir);
      if targetDir.None? || targetDir.value == ""
      then t == cwd + ["dbt", "tuva_demo"]
      else t == Absolute(cwd, targetDir.value)
  {
  }

  /** The commands `tuva_demo_flow` runs, one `run_dbt_commands` call each. */
  const FlowCommands := ["deps", "seed", "run", "test"]

  /** The invocations of the flow, with the clone as project directory and
      `cwd/config` as profiles directory. */
  function FlowTrace(projectDir: Path, profilesDir: Path): seq<DbtProject.Invocation> {
    DbtProject.Invocations(FlowCommands, projectDir, profilesDir)
  }

  /** The flow invokes `deps`, `seed`, `run` and `test`, in that order, each
      as a single argument. */
  lemma FlowTraceOrder(projectDir: Path, profilesDir: Path)
    ensures FlowTrace(projectDir, profilesDir) ==
      [ DbtProject.Invocation(["deps"], projectDir, profilesDir),
        DbtProject.Invocation(["seed"], projectDir, profilesDir),
        DbtProject.Invocation(["run"], projectDir, profilesDir),
        DbtProject.Invocation(["test"], projectDir, profilesDir) ]
  {
    DbtProject.SingleWordInvocations(FlowCommands, projectDir, profilesDir);
  }
}
