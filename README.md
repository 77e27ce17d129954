# prefect_demo flows in Dafny

A model of the logic inside three Prefect flows that run dbt projects:

- `src/flows/tuva_demo.py` clones the Tuva demo project and writes a DuckDB
  profile. It points `dbt_project.yml` at that profile, runs dbt and counts
  the rows of every table.
- `src/flows/tuva_snowflake_demo.py` does the same against Snowflake. It
  writes the profile from a connector block's fields, with an optional
  private key and passphrase.
- `src/flows/duckdb_demo.py` downloads a zip of a dbt project and caches it
  under `dbt/dbt_demo`. It writes a DuckDB profile inside the project and
  runs dbt there.

External effects become inputs or abstract state:

- The filesystem is a `Disk` object holding the set of paths that exist.
- `git clone` is a success flag.
- The downloaded archive is its list of member paths, or `None` when the
  download or the zip reader fails.
- A table's `COUNT(*)` query is a function from table name to a count or an
  error message.
- The dbt runner is the trace of its invocations.
- The working directory is a parameter.

Modules:

- `Wrappers`: `Option` and `Result`.
- `Text`: the Python string operations the flows use. It covers
  `split('\n')`, `'\n'.join`, `strip`, `startswith` and `split()`, with the
  round trips between split and join.
- `FileSystem`: paths as component lists, `rmtree`, `extractall` and
  `move` as set operations, and the `Disk` class.
- `DbtProject`: the parts shared by the flows. These are the
  `dbt_project.yml` profile rewrite (with the profile name as a parameter),
  `clone_repository` and `run_dbt_commands`.
- `TuvaDemo`, `TuvaSnowflakeDemo`, `DuckDbDemo`: one module per flow file.

`update_dbt_project_config` reads `dbt_project.yml` in text mode, so the
text it works on has every line ending already turned into `\n`. It edits
the line list in place inside for/else loops. It is modelled as a method with two loops, proved equal to the
function `RewriteText`, and the properties are lemmas about that function.

`build_dbt_demo` is modelled as a method over the `Disk`. It is proved equal
to the function `BuildState` of the paths that existed before, and the
cache, cleanup and failure properties are lemmas about `BuildState`.

On a malformed archive (one with no `dbt_project.yml`) the code raises
`ValueError` before the final `rmtree`, so the extracted files stay in the
staging directory `dbt/_tmp_extract` until the next build removes them
(`DuckDbDemo.MissingMarkerFails`, `DuckDbDemo.StaleStagingDiscarded`).

An archive whose first `dbt_project.yml` sits at its top level makes the
staging directory itself the project root. The move then renames the staging
directory to `dbt/dbt_demo`, and the following `rmtree` of the staging
directory fails. `DuckDbDemo.TopLevelMarkerFails` states this as-written
behaviour. Prefect's retry of the task (not modelled) then finds
`dbt/dbt_demo` and returns it as a cached project, so the flow goes on with
the renamed staging directory, the whole extracted archive, as its project.

## Model

| member | source | states |
|---|---|---|
| DbtProject.UpdateDbtProjectConfig | src/flows/tuva_demo.py:101-132 | a missing `dbt_project.yml` gives a not-found error naming `project_dir/dbt_project.yml` and nothing is written; otherwise the text written is `RewriteText` of the text read |
| DbtProject.FirstKeyLine | src/flows/tuva_demo.py:117-118 | the index found is a line whose stripped form starts with the key, and no earlier line does; `None` means no line does |
| DbtProject.SplitRewriteText | src/flows/tuva_demo.py:116-130 | reading the written text back line by line gives exactly the rewritten line list |
| DbtProject.ReplacesFirstProfileLine | src/flows/tuva_demo.py:116-120 | when line `i` is the first `profile:` line, the output has the same number of lines, line `i` is exactly `profile: "<name>"`, and every other line (later `profile:` lines included) is unchanged |
| DbtProject.InsertsAfterFirstNameLine | src/flows/tuva_demo.py:121-126 | with no `profile:` line and the first `name:` line at `i`, the profile line is inserted at `i + 1`, the count grows by one, and the lines before and after keep their order |
| DbtProject.UnchangedWithoutProfileOrName | src/flows/tuva_demo.py:116-130 | with neither a `profile:` nor a `name:` line, the text written equals the decoded text read |
| DbtProject.RewriteLines | src/flows/tuva_demo.py:115-125 | the line list keeps its length or grows by one, and it is unchanged or holds the `profile:` line |
| DbtProject.RewriteText | src/flows/tuva_demo.py:116-130 | no contract of its own: the text written is the lines of the text read, rewritten by `RewriteLines`, joined on newlines; its properties are the lemmas in the rows around it |
| DbtProject.RewriteLinesIdempotent | src/flows/tuva_snowflake_demo.py:180-190 | rewriting an already rewritten line list changes nothing |
| DbtProject.RewriteTextIdempotent | src/flows/tuva_snowflake_demo.py:180-194 | applying the whole rewrite twice writes the same text as applying it once |
| DbtProject.ProfileLineIsProfileKeyLine | src/flows/tuva_snowflake_demo.py:182-183 | the line the rewrite writes is itself recognised as a `profile:` line |
| DbtProject.CloneTarget | src/flows/tuva_demo.py:27-33 | a given target is used as is; with none the target is `cwd/dbt/<default name>`, one level below `cwd/dbt` |
| DbtProject.CloneRepository | src/flows/tuva_demo.py:22-52 | with no target `cwd/dbt` is created; an existing target is returned with no clone issued and nothing else changed; otherwise `git clone <url> <target>` is issued, and the target exists afterwards exactly when the clone succeeds, a failed clone being an error |
| DbtProject.InvocationsAppend | src/flows/duckdb_demo.py:94-97 | running two command lists one after another gives the trace of their concatenation |
| DbtProject.SingleWordInvocations | src/flows/duckdb_demo.py:85 | a command that is one word is passed to dbt as that word alone |
| DbtProject.RunDbtCommands | src/flows/tuva_snowflake_demo.py:199-214 | one invocation per command, in the order supplied, each with the command split on whitespace and the given project and profiles directories |
| Text.Split | src/flows/tuva_demo.py:116 | splitting always yields at least one part |
| Text.JoinSplit | src/flows/tuva_demo.py:129-130 | joining the parts of a split on the same separator gives back the original text |
| Text.SplitJoin | src/flows/tuva_demo.py:129-130 | splitting a join of a non-empty list of separator-free parts gives back the parts (`'\n'.join([])` splits to `['']`, so the empty list is excluded) |
| Text.Words | src/flows/tuva_demo.py:146 | every part of `split()` is a non-empty run of non-whitespace |
| Text.WordsOfBlank | src/flows/tuva_demo.py:146 | `split()` of a string of whitespace alone is empty |
| Text.WordsSplitAt | src/flows/tuva_demo.py:146 | `split()` of a string with a whitespace character in it is the words before that character followed by the words after it |
| Text.StripEdges | src/flows/tuva_demo.py:117 | the stripped string is no longer than the original and has no whitespace at either end |
| Text.StripSlice | src/flows/tuva_demo.py:117 | the stripped string is a slice `s[i..j]` of the original, everything before `i` and from `j` on being whitespace; with `Text.StripEdges` the slice is the largest such |
| Text.Strip | src/flows/tuva_demo.py:117 | no contract of its own: `s.strip()`; `Text.StripSlice` and `Text.StripEdges` state that it removes exactly the whitespace at both ends |
| Text.Join | src/flows/tuva_demo.py:129-130 | no contract of its own: `sep.join(parts)`; `Text.JoinSplit` and `Text.SplitJoin` tie it to `Split` |
| Text.WordsOfToken | src/flows/duckdb_demo.py:85 | `split()` of a single non-empty whitespace-free word is that word alone |
| FileSystem.Extracted | src/flows/duckdb_demo.py:41-42 | everything extraction creates lies under the target; each member path exists afterwards |
| FileSystem.ExtractedPrefix | src/flows/duckdb_demo.py:42-47 | extraction creates every ancestor directory of every member, so the parent of a `dbt_project.yml` member exists |
| FileSystem.WithoutTree | src/flows/duckdb_demo.py:36-37 | `rmtree` leaves exactly the paths that were not below the root |
| FileSystem.Moved | src/flows/duckdb_demo.py:47 | no contract of its own: `shutil.move` onto a new destination re-roots the source tree there; `FileSystem.MovedParts` states its shape |
| FileSystem.Render | src/flows/tuva_snowflake_demo.py:117-131 | the string form of a path is absolute, starting with `/` |
| FileSystem.MovedParts | src/flows/duckdb_demo.py:47 | after a move, each path either lay outside the moved tree or lies below the destination |
| FileSystem.Absolute | src/flows/tuva_demo.py:203 | a string not starting with `/` names a path below the working directory |
| FileSystem.Disk.Exists | src/flows/duckdb_demo.py:32 | true exactly when the path exists |
| FileSystem.Disk.Create | src/flows/tuva_demo.py:30 | `mkdir(exist_ok=True)` adds the path and nothing else |
| FileSystem.Disk.RemoveTree | src/flows/duckdb_demo.py:48 | succeeds exactly when the root exists, then removes its whole tree; fails changing nothing otherwise |
| FileSystem.Disk.ExtractAll | src/flows/duckdb_demo.py:41-42 | adds the extracted paths |
| FileSystem.Disk.Move | src/flows/duckdb_demo.py:47 | succeeds exactly when the source exists, then relocates its tree below the destination |
| TuvaDemo.DatabasePath | src/flows/tuva_demo.py:64-65 | a given database path is used; otherwise it is `cwd/data/tuva_demo.duckdb` |
| TuvaDemo.DuckDbProfileText | src/flows/tuva_demo.py:78-87 | no contract of its own: the profile's lines, each followed by a newline; `TuvaDemo.DuckDbProfileReadsBack` states them |
| TuvaDemo.DuckDbProfileReadsBack | src/flows/tuva_demo.py:78-87 | the profile read back line by line is `tuva_demo:`, `outputs`, `dev`, `type: duckdb`, the absolute database path, `threads: 4`, the `httpfs` extension and `target: dev`, with a final newline |
| TuvaDemo.SetupDuckDbProfile | src/flows/tuva_demo.py:55-98 | returns the database path and `cwd/config`; creates `cwd/data`, the database file, `cwd/config` and `cwd/config/profiles.yml` holding that profile text |
| TuvaDemo.Recorded | src/flows/tuva_demo.py:164-168 | a table is recorded as a row count exactly when its query succeeded, and then with that count |
| TuvaDemo.VerifyResults | src/flows/tuva_demo.py:150-179 | `tables_created` is the number of tables listed, `table_list` is the list, and `table_counts` has exactly the listed tables as keys; each maps to its count, or to `"Error: " + message` when its query fails, so one failure never stops the others |
| TuvaDemo.FlowPathArg | src/flows/tuva_demo.py:203-204 | an absent or empty argument becomes `None`; any other becomes `Path(arg)`, resolved against the working directory |
| TuvaDemo.DefaultTargetDir | src/flows/tuva_demo.py:27-31 | an absent or empty `target_dir` clones to `cwd/dbt/tuva_demo`; any other clones to the path it names |
| TuvaDemo.FlowTraceOrder | src/flows/tuva_demo.py:217-223 | the flow invokes exactly `deps`, `seed`, `run`, `test`, in that order, each with the project and profiles directories |
| TuvaSnowflakeDemo.PrivateKeySection | src/flows/tuva_snowflake_demo.py:114-134 | the private-key section is empty exactly when no private key is present |
| TuvaSnowflakeDemo.ProfileText | src/flows/tuva_snowflake_demo.py:136-152 | no contract of its own: the profile text built from the connector's fields; the lemmas in the rows below state its lines and settings |
| TuvaSnowflakeDemo.RoleText | src/flows/tuva_snowflake_demo.py:143 | the role written is never empty |
| TuvaSnowflakeDemo.PasswordText | src/flows/tuva_snowflake_demo.py:142 | no contract of its own: the password, or empty when absent; `TuvaSnowflakeDemo.RoleAndPasswordDefaults` states it |
| TuvaSnowflakeDemo.PrivateKeySectionLines | src/flows/tuva_snowflake_demo.py:130-134 | the text appended to the `authenticator:` line is one newline-prefixed line per private-key setting |
| TuvaSnowflakeDemo.ProfileTextIsLines | src/flows/tuva_snowflake_demo.py:136-152 | the profile text is the profile's lines, each followed by a newline |
| TuvaSnowflakeDemo.ProfileReadsBack | src/flows/tuva_snowflake_demo.py:136-152 | with single-line field values, the profile read back line by line is its name, `outputs`, `dev`, one line per setting and `target: dev`, with nothing after the final newline |
| TuvaSnowflakeDemo.LookupFinds | src/flows/tuva_snowflake_demo.py:139-150 | a setting lookup fails exactly when no setting has that name, and succeeds only with a value some setting of that name carries |
| TuvaSnowflakeDemo.NoPrivateKeySettings | src/flows/tuva_snowflake_demo.py:114-115 | without a private key the key section is empty, and the profile has neither a `private_key_path` nor a `private_key_passphrase` setting |
| TuvaSnowflakeDemo.PrivateKeyPathPresent | src/flows/tuva_snowflake_demo.py:115-131 | with a private key, `private_key_path` is the rendered `cwd/config/snowflake_private_key.p8`; it is the tenth setting and directly follows `authenticator` |
| TuvaSnowflakeDemo.PassphraseOnlyWithKey | src/flows/tuva_snowflake_demo.py:130-134 | `private_key_passphrase` appears, with the passphrase, exactly when both a key and a passphrase are present, and then directly after `private_key_path` |
| TuvaSnowflakeDemo.RoleAndPasswordDefaults | src/flows/tuva_snowflake_demo.py:142-143 | role is the given role unless it is absent or empty, then `PUBLIC`; password is the given one, or empty when absent |
| TuvaSnowflakeDemo.SessionSettingsFixed | src/flows/tuva_snowflake_demo.py:139-151 | the profile always has `type: snowflake`, `threads: 4`, `client_session_keep_alive: false` and `query_tag: tuva`, and its last line is `target: dev` |
| TuvaSnowflakeDemo.SetupSnowflakeProfile | src/flows/tuva_snowflake_demo.py:100-162 | creates `cwd/config`; writes the key file exactly when a private key is present, holding the key; writes `cwd/config/profiles.yml` with the profile text; returns `cwd/config` |
| TuvaSnowflakeDemo.TargetArg | src/flows/tuva_snowflake_demo.py:242 | a `target_dir` that is absent, empty or the string `"None"` becomes `None`; any other becomes a path |
| TuvaSnowflakeDemo.NoneTargetSelectsDefault | src/flows/tuva_snowflake_demo.py:33-37 | such a `target_dir` clones to `cwd/dbt/tuva_snowflake_demo`; any other clones to the path it names |
| TuvaSnowflakeDemo.FlowTraceOrder | src/flows/tuva_snowflake_demo.py:254-258 | the flow invokes exactly `run` then `test` (`deps`, `debug` and `seed` are commented out), each with the project and profiles directories |
| DuckDbDemo.ProjectAndStagingApart | src/flows/duckdb_demo.py:31-35 | no path lies both below the staging directory and below the project directory |
| DuckDbDemo.FirstMarker | src/flows/duckdb_demo.py:43-46 | the candidate taken is a `dbt_project.yml` path with none before it; `None` means the archive has none |
| DuckDbDemo.BuildState | src/flows/duckdb_demo.py:29-50 | no contract of its own: the result and the paths after `build_dbt_demo`, given the paths before; the lemmas in the rows below state its cases |
| DuckDbDemo.BuildLeavesProject | src/flows/duckdb_demo.py:29-50 | `cwd/dbt` exists after every build; a successful build returns `cwd/dbt/dbt_demo`, which then exists |
| DuckDbDemo.BuildDbtDemo | src/flows/duckdb_demo.py:25-50 | the result and the paths afterwards are those of `BuildState` applied to the paths before |
| DuckDbDemo.CachedProjectReused | src/flows/duckdb_demo.py:29-34 | an existing `dbt/dbt_demo` is returned; nothing is downloaded, extracted, moved or deleted, only `dbt` is ensured |
| DuckDbDemo.StaleStagingDiscarded | src/flows/duckdb_demo.py:35-42 | on a fresh build, whatever lies below the staging directory afterwards came from this archive, so leftovers never survive |
| DuckDbDemo.MissingMarkerFails | src/flows/duckdb_demo.py:43-45 | with no `dbt_project.yml` the build fails, `dbt/dbt_demo` is not created, and a non-empty extraction is left in the staging directory |
| DuckDbDemo.FreshBuildSucceeds | src/flows/duckdb_demo.py:46-50 | when the first `dbt_project.yml` lies in a sub-directory of the archive, the build succeeds, that directory's contents end up below `dbt/dbt_demo`, and no staging path remains |
| DuckDbDemo.FreshBuildProjectContents | src/flows/duckdb_demo.py:35-50 | on a disk whose paths have their ancestors, every path below `dbt/dbt_demo` after a fresh build is an extracted path below the project root, re-rooted there: the project directory holds nothing else |
| DuckDbDemo.BuildKeepsOthers | src/flows/duckdb_demo.py:29-50 | every build, whether cached, failed at the download, failed for want of a `dbt_project.yml` or moved, leaves each path outside `dbt/_tmp_extract` and `dbt/dbt_demo` as it was, except that `cwd/dbt` is added |
| DuckDbDemo.TopLevelMarkerFails | src/flows/duckdb_demo.py:46-48 | a top-level `dbt_project.yml` makes the move rename the staging directory itself, so the final `rmtree` fails after `dbt/dbt_demo/dbt_project.yml` already exists |
| DuckDbDemo.DemoProfileText | src/flows/duckdb_demo.py:61-67 | no contract of its own: the profile's lines joined on newlines; `DuckDbDemo.DemoProfileReadsBack` states them |
| DuckDbDemo.DemoProfileReadsBack | src/flows/duckdb_demo.py:61-67 | the profile read back line by line is exactly `demo:`, `outputs`, `dev`, `type: duckdb`, the posix database path, `threads: 1` and `target: dev`, with no trailing newline |
| DuckDbDemo.DemoProfileEndsWithTarget | src/flows/duckdb_demo.py:61-67 | the profile text ends with `  target: dev` |
| DuckDbDemo.CreateDbtProfiles | src/flows/duckdb_demo.py:53-71 | creates `cwd/data` and writes `project_dir/profiles.yml` pointing at `cwd/data/demo.duckdb` |
| DuckDbDemo.RunDbtCommands | src/flows/duckdb_demo.py:74-86 | the trace is one invocation per command, in list order, with the project directory as both project and profiles directory |
| DuckDbDemo.FlowTraceOrder | src/flows/duckdb_demo.py:94-97 | the flow invokes exactly `deps`, `seed`, `run`, `test`, in that order, each in the project directory |
| DuckDbDemo.DbtFlow | src/flows/duckdb_demo.py:89-97 | a failed build raises before any profile is written or command run, leaving the paths the build left; otherwise `cwd/data` and `project_dir/profiles.yml` are added to the paths, the profile is written there, and the four commands run in order |

## Left out

- Prefect itself is not modelled: the `@task`/`@flow` decorators, `retries=2, retry_delay_seconds=5`, `get_run_logger`, and every log and print line.
- The real I/O is not modelled: `git`, `urllib`, `zipfile`, `shutil`, `duckdb.connect` and file writes. Each is an input or a change to `Disk`.
- File contents are not stored on the `Disk`. The operations return the text they write as `WrittenFile` values.
- `FileSystem.Disk`: files and directories are not told apart, and `mkdir` errors (a missing parent, a file in the way) are not modelled.
- Paths are absolute in the model. `Path(s)` for a relative string is taken relative to the working directory. `..` components are kept as they are.
- `Text.Strip`, `Text.Words`: the whitespace set is space, tab, line feed, carriage return, vertical tab and form feed. Python also counts `\x1c`-`\x1f`, `\x85`, `\xa0` and other Unicode whitespace; those are not included.
- `DbtProject.UpdateDbtProjectConfig`: the text it is given is what `f.read()` returns in text mode, already decoded and with `\r\n` and `\r` turned into `\n`; the file is written back with `\n` line endings. That translation, and the decoding, are not modelled, so "unchanged" means unchanged after the translation.
- `TuvaSnowflakeDemo.SetupSnowflakeProfile`: secrets are plain strings. The byte-vs-text choice when writing the key file is not modelled, and neither are `SnowflakeConnector.load` or `get_secret_value`.
- `TuvaSnowflakeDemo.ProfileReadsBack`, `TuvaDemo.DuckDbProfileReadsBack` and `DuckDbDemo.DemoProfileReadsBack` require field values without newlines. A value with a newline would add lines to the YAML.
- `DuckDbDemo.FirstMarker`: the order of `rglob` is taken to be the archive's member order. Only member paths are candidates, not directories that extraction implies.
- `DuckDbDemo.BuildDbtDemo`: only a `shutil.move` onto a destination that does not yet exist is modelled, which is the only case a fresh build reaches.
- `test_snowflake_connection` is not modelled. It is a foreign query whose result is only passed through.
- The composed flows `tuva_demo_flow` and `tuva_snowflake_flow` are not modelled as a whole. Their steps, argument handling and command lists are modelled one by one. `dbt_flow` is modelled as `DuckDbDemo.DbtFlow`.
- `TuvaDemo.VerifyResults`: the per-table query is a pure function of the table name. The shared connection and its closing are not modelled. `table_counts` is a dict whose keys keep the order `SHOW TABLES` gave; the model's `map` does not keep that order.
- Whether `PrefectDbtRunner` raises or continues when a dbt command fails is not modelled. It belongs to the library, and only the invocation order is kept.
- Overlapping runs racing between the existence check and the clone or extraction are not modelled.
- `src/flows/snowflake_demo.py` and `basic_test.py` are not part of this model. They hold only connector calls and a hello-world flow.
