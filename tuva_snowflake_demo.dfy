/**
 * `tuva_snowflake_demo.py`: the Snowflake profile written from the
 * connector block's fields, and the flow's handling of its `target_dir`
 * argument. Cloning, the `dbt_project.yml` rewrite and the command runner
 * are shared with the DuckDB flow and live in DbtProject.
 */
module TuvaSnowflakeDemo {
  import opened Wrappers
  import opened Text
  import opened FileSystem
  import DbtProject

  /** The directory `clone_repository` defaults to under `cwd/dbt`. */
  const DefaultCloneDir := "tuva_snowflake_demo"

  /** The credential fields the profile reads; secrets are plain strings,
      and an optional field that the block lacks is None. */
  datatype SnowflakeCredentials = SnowflakeCredentials(
    account: string,
    user: string,
    password: Option<string>,
    role: Option<string>,
    authenticator: string,
    privateKey: Option<string>,
    privateKeyPassphrase: Option<string>)

  datatype SnowflakeConnector = SnowflakeConnector(
    credentials: SnowflakeCredentials, database: string, warehouse: string, schema: string)

  /** Python truthiness of an optional string or secret: present and non-empty. */
  predicate Present(field: Option<string>) {
    field.Some? && field.value != ""
  }

  /** Where the private key is written: `cwd/config/snowflake_private_key.p8`. */
  function KeyFilePath(cwd: Path): Path {
    Child(DbtProject.ConfigDir(cwd), "snowflake_private_key.p8")
  }

  /** `password.get_secret_value() if password else ''` */
  function PasswordText(password: Option<string>): string {
    if password.Some? then password.value else ""
  }

  /** `role or 'PUBLIC'` */
  function RoleText(role: Option<string>): (r: string)
    ensures r != ""
  {
    if Present(role) then role.value else "PUBLIC"
  }

  /** The names of the `dev` output's settings. */
  datatype Key =
    | Type | Account | User | Password | Role | Database | Warehouse | Schema
    | Authenticator | PrivateKeyPath | PrivateKeyPassphrase
    | Threads | ClientSessionKeepAlive | QueryTag

  /** How a setting's name is spelled in the profile. */
  function KeyName(k: Key): string {
    match k
    case Type => "type"
    case Account => "account"
    case User => "user"
    case Password => "password"
    case Role => "role"
    case Database => "database"
    case Warehouse => "warehouse"
    case Schema => "schema"
    case Authenticator => "authenticator"
    case PrivateKeyPath => "private_key_path"
    case PrivateKeyPassphrase => "private_key_passphrase"
    case Threads => "threads"
    case ClientSessionKeepAlive => "client_session_keep_alive"
    case QueryTag => "query_tag"
  }

  /** One `key: value` setting of the `dev` output. */
  datatype Setting = Setting(key: Key, value: string)

  /** How the profile writes a setting: indented under `dev:`. */
  function SettingLine(s: Setting): string {
    "      " + KeyName(s.key) + ": " + s.value
  }

  function SettingLines(settings: seq<Setting>): (lines: seq<string>)
    ensures |lines| == |settings|
    ensures forall k :: 0 <= k < |settings| ==> lines[k] == SettingLine(settings[k])
  {
    seq(|settings|, k requires 0 <= k < |settings| => SettingLine(settings[k]))
  }

  lemma SettingLinesAppend(a: seq<Setting>, b: seq<Setting>)
    ensures SettingLines(a + b) == SettingLines(a) + SettingLines(b)
  {
  }

  /** The settings written before the authenticator. */
  function ConnectionSettings(conn: SnowflakeConnector): seq<Setting> {
    var c := conn.credentials;
    [ Setting(Type, "snowflake"),
      Setting(Account, c.account),
      Setting(User, c.user),
      Setting(Password, PasswordText(c.password)),
      Setting(Role, RoleText(c.role)),
      Setting(Database, conn.database),
      Setting(Warehouse, conn.warehouse),
      Setting(Schema, conn.schema) ]
  }

  function AuthenticatorSetting(creds: SnowflakeCredentials): Setting {
    Setting(Authenticator, creds.authenticator)
  }

  function KeyPathSetting(keyPath: Path): Setting {
    Setting(PrivateKeyPath, Render(keyPath))
  }

  function PassphraseSetting(passphrase: string): Setting {
    Setting(PrivateKeyPassphrase, passphrase)
  }

  /** The settings written after the private-key section. */
  const SessionSettings := [
    Setting(Threads, "4"),
    Setting(ClientSessionKeepAlive, "false"),
    Setting(QueryTag, "tuva") ]

  /** The text appended to the `authenticator:` line: nothing without a
      private key, else a key path line and, with a passphrase, a
      passphrase line, each starting with a newline. */
  function PrivateKeySection(creds: SnowflakeCredentials, keyPath: Path): (r: string)
    ensures r == "" <==> !Present(creds.privateKey)
  {
    if !Present(creds.privateKey) then ""
    else
      "\n" + SettingLine(KeyPathSetting(keyPath))
      + if Present(creds.privateKeyPassphrase)
        then "\n" + SettingLine(PassphraseSetting(creds.privateKeyPassphrase.value))
        else ""
  }

  /** The `profiles.yml` text for `conn`, with the key file at `keyPath`. */
  function ProfileText(conn: SnowflakeConnector, keyPath: Path): string {
    Unlines(["tuva_snowflake:", "  outputs:", "    dev:"] + SettingLines(ConnectionSettings(conn)))
    + SettingLine(AuthenticatorSetting(conn.credentials)) + PrivateKeySection(conn.credentials, keyPath) + "\n"
    + Unlines(SettingLines(SessionSettings) + ["  target: dev"])
  }

  /** The settings of the private-key section. */
  function PrivateKeySettings(creds: SnowflakeCredentials, keyPath: Path): seq<Setting> {
    if !Present(creds.privateKey) then []
    else
      [KeyPathSetting(keyPath)]
      + if Present(creds.privateKeyPassphrase)
        then [PassphraseSetting(creds.privateKeyPassphrase.value)]
        else []
  }

  /** The settings of the `dev` output, in the order they are written. */
  function Settings(conn: SnowflakeConnector, keyPath: Path): seq<Setting> {
    ConnectionSettings(conn) + [AuthenticatorSetting(conn.credentials)]
    + PrivateKeySettings(conn.credentials, keyPath) + SessionSettings
  }

  /** The profile as lines: its name, the `dev` output's settings, the target. */
  function ProfileLines(conn: SnowflakeConnector, keyPath: Path): seq<string> {
    ["tuva_snowflake:", "  outputs:", "    dev:"] + SettingLines(Settings(conn, keyPath)) + ["  target: dev"]
  }

  /** The key section appended to the authenticator line adds one line per
      private-key setting. */
  lemma PrivateKeySectionLines(creds: SnowflakeCredentials, keyPath: Path)
    ensures PrivateKeySection(creds, keyPath) == NewlinePrefixed(SettingLines(PrivateKeySettings(creds, keyPath)))
  {
    if Present(creds.privateKey) {
      var pathLine := SettingLine(KeyPathSetting(keyPath));
      assert NewlinePrefixed([pathLine]) == "\n" + pathLine;
      if Present(creds.privateKeyPassphrase) {
        var passLine := SettingLine(PassphraseSetting(creds.privateKeyPassphrase.value));
        assert SettingLines(PrivateKeySettings(creds, keyPath)) == [pathLine, passLine];
        assert [pathLine, passLine][1..] == [passLine];
        assert NewlinePrefixed([passLine]) == "\n" + passLine;
      } else {
        assert SettingLines(PrivateKeySettings(creds, keyPath)) == [pathLine];
      }
    }
  }

  /** The settings' lines, part by part. */
  lemma SettingsLines(conn: SnowflakeConnector, keyPath: Path)
    ensures SettingLines(Settings(conn, keyPath))
         == SettingLines(ConnectionSettings(conn)) + [SettingLine(AuthenticatorSetting(conn.credentials))]
            + SettingLines(PrivateKeySettings(conn.credentials, keyPath)) + SettingLines(SessionSettings)
  {
    var c := conn.credentials;
    SettingLinesAppend(ConnectionSettings(conn) + [AuthenticatorSetting(c)] + PrivateKeySettings(c, keyPath), SessionSettings);
    SettingLinesAppend(ConnectionSettings(conn) + [AuthenticatorSetting(c)], PrivateKeySettings(c, keyPath));
    SettingLinesAppend(ConnectionSettings(conn), [AuthenticatorSetting(c)]);
  }

  /** The text written is the profile's lines, each ending in a newline. */
  lemma ProfileTextIsLines(conn: SnowflakeConnector, keyPath: Path)
    ensures ProfileText(conn, keyPath) == Unlines(ProfileLines(conn, keyPath))
  {
    var c := conn.credentials;
    var head := ["tuva_snowflake:", "  outputs:", "    dev:"] + SettingLines(ConnectionSettings(conn));
    var auth := SettingLine(AuthenticatorSetting(c));
    var keyLines := SettingLines(PrivateKeySettings(c, keyPath));
    var tail := SettingLines(SessionSettings) + ["  target: dev"];
    var section := PrivateKeySection(c, keyPath);
    PrivateKeySectionLines(c, keyPath);
    ExtendedLine(auth, keyLines);
    SettingsLines(conn, keyPath);
    assert ProfileLines(conn, keyPath) == head + ([auth] + keyLines) + tail;
    UnlinesAppend(head, [auth] + keyLines);
    UnlinesAppend(head + ([auth] + keyLines), tail);
    ConcatRegroup(Unlines(head), auth, section, Unlines(tail));
  }

  /** Regrouping a concatenation; stated apart so that the proof of
      `ProfileTextIsLines` need not find it among the facts about lines. */
  lemma ConcatRegroup(a: string, b: string, c: string, d: string)
    ensures a + b + c + "\n" + d == a + (b + c + "\n") + d
  {
  }

  /** The value of the first setting named `key`, or None when no setting
      has that name. */
  function Lookup(settings: seq<Setting>, key: Key): Option<string> {
    if settings == [] then None
    else if settings[0].key == key then Some(settings[0].value)
    else Lookup(settings[1..], key)
  }

  /** The position of the first setting named `key`, if any. */
  function IndexOf(settings: seq<Setting>, key: Key): Option<nat> {
    if settings == [] then None
    else if settings[0].key == key then Some(0)
    else match IndexOf(settings[1..], key)
      case None => None
      case Some(i) => Some(i + 1)
  }

  /** Positions in a list whose first part has no setting named `key`. */
  lemma {:induction false} IndexOfSkips(a: seq<Setting>, b: seq<Setting>, key: Key)
    requires forall k :: 0 <= k < |a| ==> a[k].key != key
    ensures IndexOf(a + b, key) == match IndexOf(b, key) case None => None case Some(i) => Some(|a| + i)
  {
    if a == [] {
      assert a + b == b;
    } else {
      assert (a + b)[0] == a[0];
      assert (a + b)[1..] == a[1..] + b;
      IndexOfSkips(a[1..], b, key);
    }
  }

  /** Lookup finds a setting exactly when one is named `key`. */
  lemma {:induction false} LookupFinds(settings: seq<Setting>, key: Key)
    ensures var r := Lookup(settings, key);
      && (r.None? <==> forall k :: 0 <= k < |settings| ==> settings[k].key != key)
      && (r.Some? ==> exists k :: 0 <= k < |settings| && settings[k] == Setting(key, r.value))
  {
    if settings != [] && settings[0].key != key {
      LookupFinds(settings[1..], key);
      var r := Lookup(settings, key);
      if r.Some? {
        var k :| 0 <= k < |settings[1..]| && settings[1..][k] == Setting(key, r.value);
        assert settings[k + 1] == Setting(key, r.value);
      }
    }
  }

  /** Lookup in a list whose first part has no setting named `key`. */
  lemma {:induction false} LookupSkips(a: seq<Setting>, b: seq<Setting>, key: Key)
    requires forall k :: 0 <= k < |a| ==> a[k].key != key
    ensures Lookup(a + b, key) == Lookup(b, key)
  {
    if a == [] {
      assert a + b == b;
    } else {
      assert (a + b)[0] == a[0];
      assert (a + b)[1..] == a[1..] + b;
      LookupSkips(a[1..], b, key);
    }
  }

  /** The settings before the private-key section name no private-key setting. */
  lemma BeforeKeySection(conn: SnowflakeConnector, keyPath: Path)
    ensures var before := ConnectionSettings(conn) + [AuthenticatorSetting(conn.credentials)];
      && Settings(conn, keyPath) == before + (PrivateKeySettings(conn.credentials, keyPath) + SessionSettings)
      && forall k :: 0 <= k < |before| ==> before[k].key != PrivateKeyPath && before[k].key != PrivateKeyPassphrase
  {
  }

  /** The session settings name no private-key setting. */
  lemma SessionLacksPrivateKey(key: Key)
    requires key == PrivateKeyPath || key == PrivateKeyPassphrase
    ensures Lookup(SessionSettings, key) == None
  {
    LookupFinds(SessionSettings, key);
  }

  /** Without a private key the profile has neither private-key setting
      and the authenticator line is not extended. */
  lemma NoPrivateKeySettings(conn: SnowflakeConnector, keyPath: Path)
    requires !Present(conn.credentials.privateKey)
    ensures PrivateKeySection(conn.credentials, keyPath) == ""
    ensures Lookup(Settings(conn, keyPath), PrivateKeyPath) == None
    ensures Lookup(Settings(conn, keyPath), PrivateKeyPassphrase) == None
  {
    var before := ConnectionSettings(conn) + [AuthenticatorSetting(conn.credentials)];
    BeforeKeySection(conn, keyPath);
    assert Settings(conn, keyPath) == before + SessionSettings;
    LookupSkips(before, SessionSettings, PrivateKeyPath);
    LookupSkips(before, SessionSettings, PrivateKeyPassphrase);
    SessionLacksPrivateKey(PrivateKeyPath);
    SessionLacksPrivateKey(PrivateKeyPassphrase);
  }

  /** With a private key the profile names the key file, directly after
      the authenticator line. */
  lemma PrivateKeyPathPresent(conn: SnowflakeConnector, keyPath: Path)
    requires Present(conn.credentials.privateKey)
    ensures Lookup(Settings(conn, keyPath), PrivateKeyPath) == Some(Render(keyPath))
    ensures IndexOf(Settings(conn, keyPath), PrivateKeyPath) == Some(9)
    ensures |Settings(conn, keyPath)| > 9 && Settings(conn, keyPath)[8] == AuthenticatorSetting(conn.credentials)
  {
    var before := ConnectionSettings(conn) + [AuthenticatorSetting(conn.credentials)];
    var rest := PrivateKeySettings(conn.credentials, keyPath) + SessionSettings;
    BeforeKeySection(conn, keyPath);
    LookupSkips(before, rest, PrivateKeyPath);
    IndexOfSkips(before, rest, PrivateKeyPath);
    assert rest[0] == KeyPathSetting(keyPath);
  }

  /** The passphrase setting appears exactly when both a private key and a
      passphrase are present, and then directly after the key path. */
  lemma PassphraseOnlyWithKey(conn: SnowflakeConnector, keyPath: Path)
    ensures Lookup(Settings(conn, keyPath), PrivateKeyPassphrase)
         == if Present(conn.credentials.privateKey) && Present(conn.credentials.privateKeyPassphrase)
            then Some(conn.credentials.privateKeyPassphrase.value) else None
    ensures Present(conn.credentials.privateKey) && Present(conn.credentials.privateKeyPassphrase) ==>
              IndexOf(Settings(conn, keyPath), PrivateKeyPassphrase) == Some(10)
  {
    var c := conn.credentials;
    if !Present(c.privateKey) {
      NoPrivateKeySettings(conn, keyPath);
    } else {
      var before := ConnectionSettings(conn) + [AuthenticatorSetting(c)];
      var rest := PrivateKeySettings(c, keyPath) + SessionSettings;
      BeforeKeySection(conn, keyPath);
      PrivateKeyPathPresent(conn, keyPath);
      LookupSkips(before, rest, PrivateKeyPassphrase);
      IndexOfSkips(before, rest, PrivateKeyPassphrase);
      if Present(c.privateKeyPassphrase) {
        assert rest[1] == PassphraseSetting(c.privateKeyPassphrase.value);
        assert rest[0].key != PrivateKeyPassphrase;
      } else {
        assert rest == [KeyPathSetting(keyPath)] + SessionSettings;
        LookupSkips([KeyPathSetting(keyPath)], SessionSettings, PrivateKeyPassphrase);
        SessionLacksPrivateKey(PrivateKeyPassphrase);
      }
    }
  }

  /** The role falls back to PUBLIC when absent or empty, and the password
      to the empty string when absent. */
  lemma RoleAndPasswordDefaults(conn: SnowflakeConnector, keyPath: Path)
    ensures var c := conn.credentials;
      Lookup(Settings(conn, keyPath), Role) == Some(if c.role.Some? && c.role.value != "" then c.role.value else "PUBLIC")
    ensures var c := conn.credentials;
      Lookup(Settings(conn, keyPath), Password) == Some(if c.password.Some? then c.password.value else "")
  {
    var settings := Settings(conn, keyPath);
    assert settings[..5] == ConnectionSettings(conn)[..5];
    LookupSkips(settings[..3], settings[3..], Password);
    LookupSkips(settings[..4], settings[4..], Role);
    assert settings == settings[..3] + settings[3..];
    assert settings == settings[..4] + settings[4..];
  }

  /** Every profile runs 4 threads, does not keep the session alive, tags
      its queries `tuva` and targets `dev`. */
  lemma SessionSettingsFixed(conn: SnowflakeConnector, keyPath: Path)
    ensures Lookup(Settings(conn, keyPath), Type) == Some("snowflake")
    ensures Lookup(Settings(conn, keyPath), Threads) == Some("4")
    ensures Lookup(Settings(conn, keyPath), ClientSessionKeepAlive) == Some("false")
    ensures Lookup(Settings(conn, keyPath), QueryTag) == Some("tuva")
    ensures var lines := ProfileLines(conn, keyPath); lines[|lines| - 1] == "  target: dev"
  {
    var c := conn.credentials;
    var before := ConnectionSettings(conn) + [AuthenticatorSetting(c)] + PrivateKeySettings(c, keyPath);
    assert Settings(conn, keyPath) == before + SessionSettings;
    LookupSkips(before, SessionSettings, Threads);
    LookupSkips(before, SessionSettings, ClientSessionKeepAlive);
    LookupSkips(before, SessionSettings, QueryTag);
  }

  /** No field of the connector holds a newline, so each setting is one line. */
  predicate SingleLineFields(conn: SnowflakeConnector, keyPath: Path) {
    forall k :: 0 <= k < |Settings(conn, keyPath)| ==> '\n' !in Settings(conn, keyPath)[k].value
  }

  /** A setting with a one-line value is written as one line. */
  lemma SettingLineSingle(s: Setting)
    requires '\n' !in s.value
    ensures '\n' !in SettingLine(s)
  {
    match s.key
    case Type =>
    case Account =>
    case User =>
    case Password =>
    case Role =>
    case Database =>
    case Warehouse =>
    case Schema =>
    case Authenticator =>
    case PrivateKeyPath =>
    case PrivateKeyPassphrase =>
    case Threads =>
    case ClientSessionKeepAlive =>
    case QueryTag =>
  }

  /** Read back line by line, the written profile is its name, one line
      per setting in order, and the target line, then an empty last piece. */
  lemma ProfileReadsBack(conn: SnowflakeConnector, keyPath: Path)
    requires SingleLineFields(conn, keyPath)
    ensures Split(ProfileText(conn, keyPath), '\n') == ProfileLines(conn, keyPath) + [""]
  {
    var settings := Settings(conn, keyPath);
    var body := SettingLines(settings);
    forall k | 0 <= k < |settings| ensures '\n' !in body[k] {
      SettingLineSingle(settings[k]);
    }
    var lines := ["tuva_snowflake:", "  outputs:", "    dev:"] + body + ["  target: dev"];
    assert forall k :: 0 <= k < |lines| ==> '\n' !in lines[k] by {
      forall k | 0 <= k < |lines| ensures '\n' !in lines[k] {
        if 3 <= k < 3 + |body| {
          assert lines[k] == body[k - 3];
        }
      }
    }
    ProfileTextIsLines(conn, keyPath);
    UnlinesReadsBack(lines);
  }

  /**
   * `setup_snowflake_profile`: `cwd/config` is created; with a private key
   * the key is written to `cwd/config/snowflake_private_key.p8` and the key
   * section is built up line by line; the profile is written to
   * `cwd/config/profiles.yml`, and the config directory is returned.
   */
  method SetupSnowflakeProfile(disk: Disk, cwd: Path, conn: SnowflakeConnector)
    returns (profilesDir: Path, profile: WrittenFile, keyFile: Option<WrittenFile>)
    modifies disk
    ensures profilesDir == DbtProject.ConfigDir(cwd)
    ensures keyFile == if Present(conn.credentials.privateKey)
                       then Some(WrittenFile(KeyFilePath(cwd), conn.credentials.privateKey.value))
                       else None
    ensures profile == WrittenFile(Child(profilesDir, "profiles.yml"), ProfileText(conn, KeyFilePath(cwd)))
    ensures disk.paths == old(disk.paths) + {profilesDir, profile.path}
                          + (if keyFile.Some? then {keyFile.value.path} else {})
  {
    var c := conn.credentials;
    profilesDir := DbtProject.ConfigDir(cwd);
    disk.Create(profilesDir);
    var section := "";
    keyFile := None;
    if Present(c.privateKey) {
      var keyPath := KeyFilePath(cwd);
      keyFile := Some(WrittenFile(keyPath, c.privateKey.value));
      disk.Create(keyPath);
      section := "\n" + SettingLine(KeyPathSetting(keyPath));
      if Present(c.privateKeyPassphrase) {
        section := section + "\n" + SettingLine(PassphraseSetting(c.privateKeyPassphrase.value));
      }
    }
    assert section == PrivateKeySection(c, KeyFilePath(cwd));
    var text := Unlines(["tuva_snowflake:", "  outputs:", "    dev:"] + SettingLines(ConnectionSettings(conn)))
      + SettingLine(AuthenticatorSetting(c)) + section + "\n"
      + Unlines(SettingLines(SessionSettings) + ["  target: dev"]);
    profile := WrittenFile(Child(profilesDir, "profiles.yml"), text);
    disk.Create(profile.path);
  }

  /** The flow treats an absent, empty or literal `"None"` `target_dir` as
      no target; any other string is a path relative to `cwd`. */
  function TargetArg(cwd: Path, targetDir: Option<string>): (p: Option<Path>)
    ensures p.None? <==> (targetDir.None? || targetDir.value == "" || targetDir.value == "None")
    ensures p.Some? ==> p.value == Absolute(cwd, targetDir.value)
  {
    if targetDir.Some? && targetDir.value != "" && targetDir.value != "None"
    then Some(Absolute(cwd, targetDir.value)) else None
  }

  /** Such a `target_dir` clones to `cwd/dbt/tuva_snowflake_demo`; any other
      clones to the path it names. */
  lemma NoneTargetSelectsDefault(cwd: Path, targetDir: Option<string>)
    ensures var t := DbtProject.CloneTarget(cwd, TargetArg(cwd, targetDir), DefaultCloneDir);
      if targetDir.None? || targetDir.value == "" || targetDir.value == "None"
      then t == cwd + ["dbt", "tuva_snowflake_demo"]
      else t == Absolute(cwd, targetDir.value)
  {
  }

  /** The commands `tuva_snowflake_flow` runs, one `run_dbt_commands` call
      each; its `deps`, `debug` and `seed` calls are commented out. */
  const FlowCommands := ["run", "test"]

  /** The invocations of the flow, with the clone as project directory and
      `cwd/config` as profiles directory. */
  function FlowTrace(projectDir: Path, profilesDir: Path): seq<DbtProject.Invocation> {
    DbtProject.Invocations(FlowCommands, projectDir, profilesDir)
  }

  /** The flow invokes only `run` and then `test`, each as a single argument. */
  lemma FlowTraceOrder(projectDir: Path, profilesDir: Path)
    ensures FlowTrace(projectDir, profilesDir) ==
      [ DbtProject.Invocation(["run"], projectDir, profilesDir),
        DbtProject.Invocation(["test"], projectDir, profilesDir) ]
  {
    DbtProject.SingleWordInvocations(FlowCommands, projectDir, profilesDir);
  }
}
