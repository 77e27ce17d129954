/**
 * The steps that `tuva_demo.py` and `tuva_snowflake_demo.py` share, written
 * once with the profile name and the default clone directory as parameters:
 * rewriting the `profile:` line of `dbt_project.yml`, cloning the project
 * unless it is already there, and running a list of dbt commands.
 */
module DbtProject {
  import opened Wrappers
  import opened Text
  import opened FileSystem

  const ProfileKey := "profile:"
  const NameKey := "name:"

  /** The profile names the two Tuva flows write. */
  const TuvaDemoProfile := "tuva_demo"
  const TuvaSnowflakeProfile := "tuva_snowflake"

  /** `line.strip().startswith(key)` */
  predicate IsKeyLine(line: string, key: string) {
    StartsWith(Strip(line), key)
  }

  /** The line `profile: "<profile>"`. */
  function ProfileLine(profile: string): string {
    "profile: \"" + profile + "\""
  }

  predicate NoNewline(s: string) {
    '\n' !in s
  }

  /** The written profile line is itself recognised as a profile line. */
  lemma ProfileLineIsProfileKeyLine(profile: string)
    ensures IsKeyLine(ProfileLine(profile), ProfileKey)
  {
    var line := ProfileLine(profile);
    StripNoEdgeWhitespace(line);
    assert line[..|ProfileKey|] == ProfileKey;
  }

  /** The index of the first line that `IsKeyLine(_, key)`, if any. */
  function FirstKeyLine(lines: seq<string>, key: string): (r: Option<nat>)
    ensures r.Some? ==> r.value < |lines| && IsKeyLine(lines[r.value], key)
    ensures r.Some? ==> forall j :: 0 <= j < r.value ==> !IsKeyLine(lines[j], key)
    ensures r.None? ==> forall j :: 0 <= j < |lines| ==> !IsKeyLine(lines[j], key)
  {
    if lines == [] then None
    else if IsKeyLine(lines[0], key) then Some(0)
    else match FirstKeyLine(lines[1..], key)
      case None => None
      case Some(i) => Some(i + 1)
  }

  /** The line list `update_dbt_project_config` writes back: the first
      profile line replaced, else a profile line inserted after the first
      name line, else the lines unchanged. */
  function RewriteLines(lines: seq<string>, profile: string): (r: seq<string>)
    ensures |r| == |lines| || |r| == |lines| + 1
    ensures r == lines || ProfileLine(profile) in r
  {
    match FirstKeyLine(lines, ProfileKey)
    case Some(i) => lines[i := ProfileLine(profile)]
    case None =>
      match FirstKeyLine(lines, NameKey)
      case Some(i) => lines[..i + 1] + [ProfileLine(profile)] + lines[i + 1..]
      case None => lines
  }

  /** The text `update_dbt_project_config` writes for the text it read. */
  function RewriteText(content: string, profile: string): string {
    Join(RewriteLines(Split(content, '\n'), profile), '\n')
  }

  datatype ConfigError = ProjectFileNotFound(path: Path)

  /**
   * `update_dbt_project_config`: `existing` is the text `f.read()` returns
   * for `projectDir / "dbt_project.yml"` (already decoded, with its line
   * endings turned into `'\n'`), or None when that file does not exist.
   * On success the result is the text written back to the file; on failure
   * nothing is written.
   */
  method UpdateDbtProjectConfig(projectDir: Path, existing: Option<string>, profile: string)
    returns (r: Result<string, ConfigError>)
    ensures existing.None? ==> r == Failure(ProjectFileNotFound(Child(projectDir, "dbt_project.yml")))
    ensures existing.Some? ==> r == Success(RewriteText(existing.value, profile))
  {
    if existing.None? {
      return Failure(ProjectFileNotFound(Child(projectDir, "dbt_project.yml")));
    }
    var lines := Split(existing.value, '\n');
    ghost var original := lines;
    var i := 0;
    while i < |lines| && !IsKeyLine(lines[i], ProfileKey)
      invariant 0 <= i <= |lines|
      invariant forall j :: 0 <= j < i ==> !IsKeyLine(lines[j], ProfileKey)
    {
      i := i + 1;
    }
    if i < |lines| {
      FirstKeyLineIs(original, ProfileKey, i);
      lines := lines[i := ProfileLine(profile)];
    } else {
      var k := 0;
      while k < |lines| && !IsKeyLine(lines[k], NameKey)
        invariant 0 <= k <= |lines|
        invariant forall j :: 0 <= j < k ==> !IsKeyLine(lines[j], NameKey)
      {
        k := k + 1;
      }
      if k < |lines| {
        FirstKeyLineIs(original, NameKey, k);
        lines := lines[..k + 1] + [ProfileLine(profile)] + lines[k + 1..];
      }
    }
    r := Success(Join(lines, '\n'));
  }

  /** The lines of the rewritten text, read back, are the rewritten lines. */
  lemma SplitRewriteText(content: string, profile: string)
    requires NoNewline(profile)
    ensures Split(RewriteText(content, profile), '\n') == RewriteLines(Split(content, '\n'), profile)
  {
    var lines := Split(content, '\n');
    var out := RewriteLines(lines, profile);
    SplitPartsLackSeparator(content, '\n');
    assert forall k :: 0 <= k < |out| ==> '\n' !in out[k];
    SplitJoin(out, '\n');
  }

  /** With a profile line at index `i` and none before it, exactly line `i`
      changes, to `profile: "<profile>"`, and the line count is kept. */
  lemma ReplacesFirstProfileLine(content: string, profile: string, i: nat)
    requires NoNewline(profile)
    requires i < |Split(content, '\n')| && IsKeyLine(Split(content, '\n')[i], ProfileKey)
    requires forall j :: 0 <= j < i ==> !IsKeyLine(Split(content, '\n')[j], ProfileKey)
    ensures var lines, out := Split(content, '\n'), Split(RewriteText(content, profile), '\n');
      && |out| == |lines|
      && out[i] == ProfileLine(profile)
      && forall j :: 0 <= j < |lines| && j != i ==> out[j] == lines[j]
  {
    SplitRewriteText(content, profile);
  }

  /** With no profile line and the first name line at index `i`, the
      profile line is inserted at `i + 1` and every other line keeps its order. */
  lemma InsertsAfterFirstNameLine(content: string, profile: string, i: nat)
    requires NoNewline(profile)
    requires forall j :: 0 <= j < |Split(content, '\n')| ==> !IsKeyLine(Split(content, '\n')[j], ProfileKey)
    requires i < |Split(content, '\n')| && IsKeyLine(Split(content, '\n')[i], NameKey)
    requires forall j :: 0 <= j < i ==> !IsKeyLine(Split(content, '\n')[j], NameKey)
    ensures var lines, out := Split(content, '\n'), Split(RewriteText(content, profile), '\n');
      && |out| == |lines| + 1
      && out[..i + 1] == lines[..i + 1]
      && out[i + 1] == ProfileLine(profile)
      && out[i + 2..] == lines[i + 1..]
  {
    var lines := Split(content, '\n');
    SplitRewriteText(content, profile);
    FirstKeyLineIs(lines, NameKey, i);
    var out := lines[..i + 1] + [ProfileLine(profile)] + lines[i + 1..];
    assert RewriteLines(lines, profile) == out;
    assert out[i + 2..] == lines[i + 1..];
  }

  /** With neither a profile nor a name line, the text written is the text read. */
  lemma UnchangedWithoutProfileOrName(content: string, profile: string)
    requires forall j :: 0 <= j < |Split(content, '\n')| ==> !IsKeyLine(Split(content, '\n')[j], ProfileKey)
    requires forall j :: 0 <= j < |Split(content, '\n')| ==> !IsKeyLine(Split(content, '\n')[j], NameKey)
    ensures RewriteText(content, profile) == content
  {
    JoinSplit(content, '\n');
  }

  /** The first key line is the one with no key line before it. */
  lemma FirstKeyLineIs(lines: seq<string>, key: string, i: nat)
    requires i < |lines| && IsKeyLine(lines[i], key)
    requires forall j :: 0 <= j < i ==> !IsKeyLine(lines[j], key)
    ensures FirstKeyLine(lines, key) == Some(i)
  {
  }

  /** A line list that already went through the rewrite is left as it is. */
  lemma RewriteLinesIdempotent(lines: seq<string>, profile: string)
    ensures RewriteLines(RewriteLines(lines, profile), profile) == RewriteLines(lines, profile)
  {
    var p := ProfileLine(profile);
    ProfileLineIsProfileKeyLine(profile);
    match FirstKeyLine(lines, ProfileKey)
    case Some(i) =>
      var out := lines[i := p];
      assert forall j :: 0 <= j < i ==> out[j] == lines[j];
      FirstKeyLineIs(out, ProfileKey, i);
      assert out[i := p] == out;
    case None =>
      match FirstKeyLine(lines, NameKey)
      case Some(i) =>
        var out := lines[..i + 1] + [p] + lines[i + 1..];
        assert out[i + 1] == p;
        assert forall j :: 0 <= j <= i ==> out[j] == lines[j];
        FirstKeyLineIs(out, ProfileKey, i + 1);
        assert out[i + 1 := p] == out;
      case None =>
  }

  /** Running the rewrite on its own output writes the same text again. */
  lemma RewriteTextIdempotent(content: string, profile: string)
    requires NoNewline(profile)
    ensures RewriteText(RewriteText(content, profile), profile) == RewriteText(content, profile)
  {
    SplitRewriteText(content, profile);
    RewriteLinesIdempotent(Split(content, '\n'), profile);
  }

  /** Both profile names the flows use satisfy the lemmas' requirement. */
  lemma FlowProfilesHaveNoNewline()
    ensures NoNewline(TuvaDemoProfile) && NoNewline(TuvaSnowflakeProfile)
  {
  }

  /** The argument list of `git clone <repoUrl> <target>`. */
  function GitClone(repoUrl: string, target: Path): seq<string> {
    ["git", "clone", repoUrl, Render(target)]
  }

  /** The directory that holds the projects when no target is given. */
  function DbtDir(cwd: Path): Path {
    Child(cwd, "dbt")
  }

  /** `cwd/data`, where the DuckDB flows keep their databases. */
  function DataDir(cwd: Path): Path {
    Child(cwd, "data")
  }

  /** `cwd/config`, the profiles directory of the two Tuva flows. */
  function ConfigDir(cwd: Path): Path {
    Child(cwd, "config")
  }

  /** The clone target: the given path, or `cwd/dbt/<defaultName>`. */
  function CloneTarget(cwd: Path, target: Option<Path>, defaultName: string): (t: Path)
    ensures target.Some? ==> t == target.value
    ensures target.None? ==> Under(t, DbtDir(cwd)) && |t| == |cwd| + 2 && t[|cwd| + 1] == defaultName
  {
    match target
    case Some(p) => p
    case None => Child(DbtDir(cwd), defaultName)
  }

  datatype CloneError = CloneFailed(command: seq<string>)

  /**
   * `clone_repository`: with no target, `cwd/dbt` is created and the
   * target is `cwd/dbt/<defaultName>`. An existing target is returned as it
   * is and no clone is issued; otherwise `git clone` is issued, and
   * `cloneSucceeds` (its exit status) decides whether the target now exists
   * or the step fails.
   */
  method CloneRepository(disk: Disk, cwd: Path, repoUrl: string, target: Option<Path>,
                         defaultName: string, cloneSucceeds: bool)
    returns (r: Result<Path, CloneError>, issued: Option<seq<string>>)
    modifies disk
    ensures var t, before := CloneTarget(cwd, target, defaultName),
                             old(disk.paths) + (if target.None? then {DbtDir(cwd)} else {});
      if t in before then
        r == Success(t) && issued == None && disk.paths == before
      else
        && issued == Some(GitClone(repoUrl, t))
        && r == (if cloneSucceeds then Success(t) else Failure(CloneFailed(GitClone(repoUrl, t))))
        && disk.paths == (if cloneSucceeds then before + {t} else before)
  {
    if target.None? {
      disk.Create(DbtDir(cwd));
    }
    var t := CloneTarget(cwd, target, defaultName);
    var present := disk.Exists(t);
    if present {
      r, issued := Success(t), None;
      return;
    }
    issued := Some(GitClone(repoUrl, t));
    if cloneSucceeds {
      disk.Create(t);
      r := Success(t);
    } else {
      r := Failure(CloneFailed(GitClone(repoUrl, t)));
    }
  }

  /** One `runner.invoke(args)` call, with the runner's settings. */
  datatype Invocation = Invocation(args: seq<string>, projectDir: Path, profilesDir: Path)

  /**
   * `run_dbt_commands`: one invocation per command, in list order, each
   * with the command split on whitespace. Only the order of invocations is
   * modelled, not what the runner does with them.
   */
  method RunDbtCommands(commands: seq<string>, projectDir: Path, profilesDir: Path)
    returns (trace: seq<Invocation>)
    ensures |trace| == |commands|
    ensures forall k :: 0 <= k < |commands| ==>
              trace[k] == Invocation(Words(commands[k]), projectDir, profilesDir)
  {
    trace := [];
    for i := 0 to |commands|
      invariant |trace| == i
      invariant forall k :: 0 <= k < i ==> trace[k] == Invocation(Words(commands[k]), projectDir, profilesDir)
    {
      trace := trace + [Invocation(Words(commands[i]), projectDir, profilesDir)];
    }
  }

  /** The invocations of running `commands` in order with the given
      directories. */
  function Invocations(commands: seq<string>, projectDir: Path, profilesDir: Path): seq<Invocation> {
    seq(|commands|, k requires 0 <= k < |commands| =>
      Invocation(Words(commands[k]), projectDir, profilesDir))
  }

  /** Running two command lists one after the other is running their
      concatenation. */
  lemma InvocationsAppend(a: seq<string>, b: seq<string>, projectDir: Path, profilesDir: Path)
    ensures Invocations(a + b, projectDir, profilesDir)
         == Invocations(a, projectDir, profilesDir) + Invocations(b, projectDir, profilesDir)
  {
    var l := Invocations(a + b, projectDir, profilesDir);
    var r := Invocations(a, projectDir, profilesDir) + Invocations(b, projectDir, profilesDir);
    forall k | 0 <= k < |l| ensures l[k] == r[k] {
      if k < |a| {
        assert (a + b)[k] == a[k];
      } else {
        assert (a + b)[k] == b[k - |a|];
      }
    }
  }

  /** Commands that are single words are invoked with themselves as the
      only argument. */
  lemma SingleWordInvocations(commands: seq<string>, projectDir: Path, profilesDir: Path)
    requires forall k :: 0 <= k < |commands| ==> IsWord(commands[k])
    ensures Invocations(commands, projectDir, profilesDir)
         == seq(|commands|, k requires 0 <= k < |commands| => Invocation([commands[k]], projectDir, profilesDir))
  {
    forall k | 0 <= k < |commands| ensures Words(commands[k]) == [commands[k]] {
      WordsOfToken(commands[k]);
    }
  }
}
