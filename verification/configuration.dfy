/** The application settings record (`Config` in cli_app/config.py): its
    defaults, the two field validators run at construction, loading from and
    saving to a TOML table, the default file location and the two checks
    `is_configured` and `validate`.

    Reading and writing the file itself and TOML parsing are not modelled:
    whether the file exists and the TOML parser's verdict on its text are
    given, and saving yields the path and the table that would be
    written. */
module Configuration {
  import opened Wrappers
  import Text
  import Urls

  const DefaultTimeout: int := 30
  const MaxTimeout: int := 300
  const DefaultLogLevel: string := "INFO"
  const Levels: seq<string> := ["DEBUG", "INFO", "WARNING", "ERROR", "CRITICAL"]

  const AppDirName: string := "cli-app"
  const ConfigFileName: string := "config.toml"

  datatype Config = Config(
    apiEndpoint: Option<string>,
    apiToken: Option<string>,
    timeout: int,
    verifySsl: bool,
    logLevel: string,
    configFile: Option<string>)

  /** Python truthiness of an optional string: present and non-empty. */
  predicate Given(s: Option<string>) {
    s.Some? && s.value != ""
  }

  predicate ValidTimeout(t: int) {
    1 <= t <= MaxTimeout
  }

  /** What construction guarantees; field assignment afterwards does not
      re-validate, so a `Config` that has been assigned to may lack it. */
  predicate WellFormed(c: Config) {
    ValidTimeout(c.timeout) && c.logLevel in Levels
  }

  /** `Config()` */
  function Default(): (c: Config)
    ensures WellFormed(c)
    ensures c.apiEndpoint.None? && c.apiToken.None? && c.configFile.None?
    ensures c.timeout == 30 && c.verifySsl && c.logLevel == "INFO"
  {
    Config(None, None, DefaultTimeout, true, DefaultLogLevel, None)
  }

  // ---------------------------------------------------------------------
  // Field validation at construction

  /** One complaint of the model's validation: the field and the message. */
  datatype FieldError = FieldError(field: string, message: string)

  const LogLevelMessage: string := "Log level must be one of: " + Text.Join(Levels, ", ")
  const TimeoutNotPositiveMessage: string := "Timeout must be greater than 0"
  const TimeoutTooLargeMessage: string := "Timeout cannot exceed 300 seconds"

  /** The `log_level` validator: case-insensitive membership, stored upper-cased. */
  function CheckLogLevel(v: string): (r: Result<string, FieldError>)
    ensures r.Success? <==> Text.Upper(v) in Levels
    ensures r.Success? ==> r.value in Levels && r.value == Text.Upper(v)
    ensures r.Failure? ==> r.error == FieldError("log_level", LogLevelMessage)
  {
    var upper := Text.Upper(v);
    if upper !in Levels then Failure(FieldError("log_level", LogLevelMessage)) else Success(upper)
  }

  /** Upper- and lower-case spellings of a level are the same level. */
  lemma LogLevelCaseInsensitive(v: string)
    ensures CheckLogLevel(v) == CheckLogLevel(Text.Upper(v))
  {
    Text.UpperIdempotent(v);
  }

  /** The `timeout` validator. */
  function CheckTimeout(t: int): (r: Result<int, FieldError>)
    ensures r.Success? <==> 1 <= t <= 300
    ensures r.Success? ==> r.value == t
    ensures t <= 0 ==> r == Failure(FieldError("timeout", TimeoutNotPositiveMessage))
    ensures t > 300 ==> r == Failure(FieldError("timeout", TimeoutTooLargeMessage))
  {
    if t <= 0 then Failure(FieldError("timeout", TimeoutNotPositiveMessage))
    else if t > MaxTimeout then Failure(FieldError("timeout", TimeoutTooLargeMessage))
    else Success(t)
  }

  function ErrorsOf<T>(r: Result<T, FieldError>): (es: seq<FieldError>)
    ensures es == [] <==> r.Success?
    ensures r.Failure? ==> es == [r.error]
  {
    if r.Success? then [] else [r.error]
  }

  /** Builds the record once every field has been checked; the complaints
      are reported together, in the order the fields are declared. */
  function Assemble(
    endpoint: Result<Option<string>, FieldError>,
    token: Result<Option<string>, FieldError>,
    timeout: Result<int, FieldError>,
    verify: Result<bool, FieldError>,
    level: Result<string, FieldError>,
    file: Result<Option<string>, FieldError>): (r: Result<Config, seq<FieldError>>)
    ensures r.Success? <==>
      endpoint.Success? && token.Success? && timeout.Success? && verify.Success? && level.Success? && file.Success?
    ensures r.Success? ==>
      r.value == Config(endpoint.value, token.value, timeout.value, verify.value, level.value, file.value)
    ensures r.Failure? ==>
      r.error == ErrorsOf(endpoint) + ErrorsOf(token) + ErrorsOf(timeout) + ErrorsOf(verify) + ErrorsOf(level) + ErrorsOf(file)
  {
    var errors := ErrorsOf(endpoint) + ErrorsOf(token) + ErrorsOf(timeout) + ErrorsOf(verify) + ErrorsOf(level) + ErrorsOf(file);
    if errors != [] then Failure(errors)
    else Success(Config(endpoint.value, token.value, timeout.value, verify.value, level.value, file.value))
  }

  /** `Config(api_endpoint=..., api_token=..., timeout=..., verify_ssl=...,
      log_level=..., config_file=...)` with values of the declared types. */
  function New(endpoint: Option<string>, token: Option<string>, timeout: int, verify: bool,
               level: string, file: Option<string>): (r: Result<Config, seq<FieldError>>)
    ensures r.Success? <==> ValidTimeout(timeout) && Text.Upper(level) in Levels
    ensures r.Success? ==> WellFormed(r.value)
    ensures r.Success? ==> r.value == Config(endpoint, token, timeout, verify, Text.Upper(level), file)
    ensures r.Failure? ==> 1 <= |r.error| <= 2
    ensures r.Failure? ==> (r.error[0].field == "timeout" <==> !ValidTimeout(timeout))
    ensures r.Failure? ==> (r.error[|r.error| - 1].field == "log_level" <==> Text.Upper(level) !in Levels)
  {
    Assemble(Success(endpoint), Success(token), CheckTimeout(timeout), Success(verify), CheckLogLevel(level), Success(file))
  }

  // ---------------------------------------------------------------------
  // TOML tables

  /** A decoded TOML value; floats, dates, arrays and tables are `TOther`. */
  datatype TomlValue = TString(s: string) | TInteger(i: int) | TBool(b: bool) | TOther

  type TomlTable = map<string, TomlValue>

  const FieldNames: set<string> := {"api_endpoint", "api_token", "timeout", "verify_ssl", "log_level", "config_file"}

  const StrExpected: string := "str type expected"
  const IntExpected: string := "value is not a valid integer"
  const BoolExpected: string := "value could not be parsed to a boolean"

  function OptionalString(t: TomlTable, key: string): Result<Option<string>, FieldError> {
    if key !in t then Success(None)
    else if t[key].TString? then Success(Some(t[key].s))
    else Failure(FieldError(key, StrExpected))
  }

  function TimeoutEntry(t: TomlTable): Result<int, FieldError> {
    if "timeout" !in t then Success(DefaultTimeout)
    else if t["timeout"].TInteger? then CheckTimeout(t["timeout"].i)
    else Failure(FieldError("timeout", IntExpected))
  }

  function VerifyEntry(t: TomlTable): Result<bool, FieldError> {
    if "verify_ssl" !in t then Success(true)
    else if t["verify_ssl"].TBool? then Success(t["verify_ssl"].b)
    else Failure(FieldError("verify_ssl", BoolExpected))
  }

  function LevelEntry(t: TomlTable): Result<string, FieldError> {
    if "log_level" !in t then Success(DefaultLogLevel)
    else if t["log_level"].TString? then CheckLogLevel(t["log_level"].s)
    else Failure(FieldError("log_level", StrExpected))
  }

  /** The value of a string-typed key, as the field would hold it. */
  function StringEntry(t: TomlTable, key: string): Option<string> {
    if key in t && t[key].TString? then Some(t[key].s) else None
  }

  /** Reference condition for a table to load: every field key present has
      a value of the field's type, and the two validated fields are in range. */
  predicate Acceptable(t: TomlTable) {
    && (forall key :: key in t && key in {"api_endpoint", "api_token", "config_file", "log_level"} ==> t[key].TString?)
    && ("timeout" in t ==> t["timeout"].TInteger? && 1 <= t["timeout"].i <= 300)
    && ("verify_ssl" in t ==> t["verify_ssl"].TBool?)
    && ("log_level" in t ==> Text.Upper(t["log_level"].s) in Levels)
  }

  /** `Config(**table)`: keys other than the six field names are ignored,
      missing keys take their defaults, present ones are checked. */
  function FromTable(t: TomlTable): (r: Result<Config, seq<FieldError>>)
    ensures r.Success? <==> Acceptable(t)
    ensures r.Success? ==> WellFormed(r.value) && r.value.configFile == StringEntry(t, "config_file")
    ensures r.Success? ==> r.value.apiEndpoint == StringEntry(t, "api_endpoint")
    ensures r.Success? ==> r.value.apiToken == StringEntry(t, "api_token")
    ensures r.Success? ==> ("timeout" in t ==> t["timeout"] == TInteger(r.value.timeout))
    ensures r.Success? ==> ("timeout" !in t ==> r.value.timeout == 30)
    ensures r.Success? ==> ("verify_ssl" in t ==> t["verify_ssl"] == TBool(r.value.verifySsl))
    ensures r.Success? ==> ("verify_ssl" !in t ==> r.value.verifySsl)
    ensures r.Success? ==> ("log_level" in t ==> r.value.logLevel == Text.Upper(t["log_level"].s))
    ensures r.Success? ==> ("log_level" !in t ==> r.value.logLevel == "INFO")
  {
    Assemble(OptionalString(t, "api_endpoint"), OptionalString(t, "api_token"), TimeoutEntry(t),
             VerifyEntry(t), LevelEntry(t), OptionalString(t, "config_file"))
  }

  /** Only the six field names matter to loading. */
  lemma FromTableIgnoresUnknownKeys(t: TomlTable)
    ensures FromTable(t) == FromTable(map k | k in t && k in FieldNames :: t[k])
  {
  }

  /** An empty table loads as the defaults. */
  lemma FromEmptyTable()
    ensures FromTable(map[]) == Success(Default())
  {
  }

  /** The table `save` writes: every non-None field except `config_file`. */
  function SaveTable(c: Config): (t: TomlTable)
    ensures t.Keys <= FieldNames && "config_file" !in t
    ensures "api_endpoint" in t <==> c.apiEndpoint.Some?
    ensures "api_token" in t <==> c.apiToken.Some?
    ensures "timeout" in t && "verify_ssl" in t && "log_level" in t
    ensures t["timeout"] == TInteger(c.timeout) && t["verify_ssl"] == TBool(c.verifySsl)
    ensures t["log_level"] == TString(c.logLevel)
    ensures c.apiEndpoint.Some? ==> t["api_endpoint"] == TString(c.apiEndpoint.value)
    ensures c.apiToken.Some? ==> t["api_token"] == TString(c.apiToken.value)
  {
    var always := map["timeout" := TInteger(c.timeout), "verify_ssl" := TBool(c.verifySsl), "log_level" := TString(c.logLevel)];
    var withEndpoint := if c.apiEndpoint.Some? then always["api_endpoint" := TString(c.apiEndpoint.value)] else always;
    if c.apiToken.Some? then withEndpoint["api_token" := TString(c.apiToken.value)] else withEndpoint
  }

  /** Saving then loading gives back every persisted field exactly when the
      record is well formed; a timeout outside 1..300 (possible after field
      assignment) or a level not yet upper-cased makes the round trip fail
      or change the level. */
  lemma {:induction false} SaveThenLoad(c: Config)
    ensures FromTable(SaveTable(c)).Success? <==> ValidTimeout(c.timeout) && Text.Upper(c.logLevel) in Levels
    ensures FromTable(SaveTable(c)) == Success(c.(configFile := None)) <==> WellFormed(c)
  {
    var t := SaveTable(c);
    assert TimeoutEntry(t) == CheckTimeout(c.timeout);
    assert LevelEntry(t) == CheckLogLevel(c.logLevel);
    assert OptionalString(t, "api_endpoint") == Success(c.apiEndpoint);
    assert OptionalString(t, "api_token") == Success(c.apiToken);
    assert OptionalString(t, "config_file") == Success(None);
    assert VerifyEntry(t) == Success(c.verifySsl);
    if WellFormed(c) {
      LevelIsUpper(c.logLevel);
    }
    if FromTable(t) == Success(c.(configFile := None)) {
      assert c.logLevel == Text.Upper(c.logLevel);
    }
  }

  lemma LevelIsUpper(l: string)
    requires l in Levels
    ensures Text.Upper(l) == l
  {
    assert Text.IsUpperWord("DEBUG") && Text.IsUpperWord("INFO") && Text.IsUpperWord("WARNING");
    assert Text.IsUpperWord("ERROR") && Text.IsUpperWord("CRITICAL");
    Text.UpperFixesUpperWord(l);
  }

  // ---------------------------------------------------------------------
  // Files and paths

  /** The configuration file as `from_file` finds it: absent, or present
      with the TOML parser's verdict on its text (the table, or the parser's
      error message). */
  datatype FileState = Missing | Present(parsed: Result<TomlTable, string>)

  datatype InvalidCause = Unparsable(detail: string) | Rejected(errors: seq<FieldError>)

  datatype LoadError = NotFound(path: string) | InvalidFile(cause: InvalidCause)

  /** `Config.from_file(path)` */
  function FromFile(path: string, file: FileState): (r: Result<Config, LoadError>)
    ensures r == Failure(NotFound(path)) <==> file.Missing?
    ensures file.Present? && file.parsed.Failure? ==>
      r == Failure(InvalidFile(Unparsable(file.parsed.error)))
    ensures file.Present? && file.parsed.Success? ==>
      var loaded := FromTable(file.parsed.value);
      && (r.Success? <==> loaded.Success?)
      && (r.Success? ==> r.value == loaded.value)
      && (r.Failure? ==> r.error == InvalidFile(Rejected(loaded.error)))
  {
    match file
    case Missing => Failure(NotFound(path))
    case Present(Failure(detail)) => Failure(InvalidFile(Unparsable(detail)))
    case Present(Success(table)) =>
      match FromTable(table)
      case Failure(errors) => Failure(InvalidFile(Rejected(errors)))
      case Success(c) => Success(c)
  }

  const NotFoundPrefix: string := "Configuration file not found: "
  const InvalidFilePrefix: string := "Invalid configuration file: "

  function Messages(errors: seq<FieldError>): seq<string> {
    seq(|errors|, i requires 0 <= i < |errors| => errors[i].message)
  }

  /** The text of a load failure. */
  function LoadErrorMessage(e: LoadError): (m: string)
    ensures e.NotFound? ==> m == NotFoundPrefix + e.path
    ensures e.InvalidFile? ==> Text.StartsWith(m, InvalidFilePrefix)
    ensures e.InvalidFile? && e.cause.Unparsable? ==> m == InvalidFilePrefix + e.cause.detail
  {
    match e
    case NotFound(path) => NotFoundPrefix + path
    case InvalidFile(Unparsable(detail)) => InvalidFilePrefix + detail
    case InvalidFile(Rejected(errors)) => InvalidFilePrefix + Text.Join(Messages(errors), "\n")
  }

  /** The process environment and home directory that choose the default path. */
  datatype Env = Env(xdgConfigHome: Option<string>, home: string)

  /** `os.path.join(a, b)` for a relative component `b`. */
  function JoinPath(a: string, b: string): (p: string)
    ensures Text.StartsWith(p, a) && Text.EndsWith(p, b)
    ensures |p| <= |a| + 1 + |b|
  {
    if a == "" then b
    else if Text.EndsWith(a, "/") then a + b
    else a + "/" + b
  }

  /** `_get_default_config_path()` */
  function DefaultPath(env: Env): (p: string)
    ensures Given(env.xdgConfigHome) ==>
      p == JoinPath(JoinPath(env.xdgConfigHome.value, AppDirName), ConfigFileName)
    ensures !Given(env.xdgConfigHome) ==>
      p == JoinPath(JoinPath(JoinPath(env.home, ".config"), AppDirName), ConfigFileName)
    ensures Text.EndsWith(p, "cli-app/config.toml")
  {
    var base := if Given(env.xdgConfigHome) then env.xdgConfigHome.value else JoinPath(env.home, ".config");
    var dir := JoinPath(base, AppDirName);
    var p := JoinPath(dir, ConfigFileName);
    EndsWithAppFile(dir);
    p
  }

  lemma EndsWithAppFile(dir: string)
    requires Text.EndsWith(dir, AppDirName)
    ensures Text.EndsWith(JoinPath(dir, ConfigFileName), "cli-app/config.toml")
  {
    var n := |dir|;
    assert dir[n - 1] == AppDirName[6] == 'p';
    var p := JoinPath(dir, ConfigFileName);
    assert p == dir + "/" + ConfigFileName;
    assert p[|p| - 19..] == dir[n - 7..] + "/" + ConfigFileName;
  }

  lemma JoinAddsSeparator(a: string, b: string)
    requires a != "" && a[|a| - 1] != '/'
    ensures JoinPath(a, b) == a + "/" + b
  {
  }

  /** The application's file under a directory not ending in '/'. */
  lemma AppFileUnder(dir: string)
    requires dir != "" && dir[|dir| - 1] != '/'
    ensures JoinPath(JoinPath(dir, AppDirName), ConfigFileName) == dir + "/cli-app/config.toml"
  {
    JoinAddsSeparator(dir, AppDirName);
    var app := dir + "/" + AppDirName;
    assert app[|app| - 1] == 'p';
    JoinAddsSeparator(app, ConfigFileName);
    assert "/" + AppDirName + "/" + ConfigFileName == "/cli-app/config.toml";
    assert app + "/" + ConfigFileName == dir + ("/" + AppDirName + "/" + ConfigFileName);
  }

  /** `$XDG_CONFIG_HOME/cli-app/config.toml` when the variable is set and
      non-empty: "/custom/config" gives "/custom/config/cli-app/config.toml". */
  lemma DefaultPathUnderXdg(env: Env)
    requires Given(env.xdgConfigHome)
    requires env.xdgConfigHome.value[|env.xdgConfigHome.value| - 1] != '/'
    ensures DefaultPath(env) == env.xdgConfigHome.value + "/cli-app/config.toml"
  {
    AppFileUnder(env.xdgConfigHome.value);
  }

  lemma DotConfigSuffix()
    ensures "/" + ".config" + "/cli-app/config.toml" == "/.config/cli-app/config.toml"
  {
  }

  /** `~/.config/cli-app/config.toml` when the variable is unset or empty:
      home "/home/user" gives "/home/user/.config/cli-app/config.toml". */
  lemma DefaultPathUnderHome(env: Env)
    requires !Given(env.xdgConfigHome)
    requires env.home != "" && env.home[|env.home| - 1] != '/'
    ensures DefaultPath(env) == env.home + "/.config/cli-app/config.toml"
  {
    var home := env.home;
    JoinAddsSeparator(home, ".config");
    var base := home + "/" + ".config";
    assert base[|base| - 1] == 'g';
    AppFileUnder(base);
    DotConfigSuffix();
    assert base + "/cli-app/config.toml" == home + ("/" + ".config" + "/cli-app/config.toml");
  }

  /** What `save(path)` writes, and where. */
  datatype SaveRequest = SaveRequest(path: string, table: TomlTable)

  function Save(c: Config, path: Option<string>, env: Env): (r: SaveRequest)
    ensures path.Some? ==> r.path == path.value
    ensures path.None? ==> r.path == DefaultPath(env)
    ensures r.table == SaveTable(c)
  {
    SaveRequest(if path.Some? then path.value else DefaultPath(env), SaveTable(c))
  }

  /** Saving to a file and loading it back is the identity on a well-formed
      record, with `config_file` dropped. */
  lemma {:induction false} SaveFromFileRoundTrip(c: Config, path: Option<string>, env: Env)
    requires WellFormed(c)
    ensures FromFile(Save(c, path, env).path, Present(Success(Save(c, path, env).table))) == Success(c.(configFile := None))
  {
    SaveThenLoad(c);
  }

  // ---------------------------------------------------------------------
  // Checks and projections

  /** `is_configured()` */
  predicate IsConfigured(c: Config) {
    Given(c.apiEndpoint) && Given(c.apiToken)
  }

  /** The four combinations of the tests, and the empty-string case. */
  lemma IsConfiguredCases(c: Config)
    ensures c.apiEndpoint.None? || c.apiToken.None? ==> !IsConfigured(c)
    ensures c.apiEndpoint == Some("") || c.apiToken == Some("") ==> !IsConfigured(c)
    ensures (exists e, t :: e != "" && t != "" && c.apiEndpoint == Some(e) && c.apiToken == Some(t)) <==> IsConfigured(c)
  {
    if IsConfigured(c) {
      var e, t := c.apiEndpoint.value, c.apiToken.value;
      assert e != "" && t != "" && c.apiEndpoint == Some(e) && c.apiToken == Some(t);
    }
  }

  const NotConfiguredMessage: string := "API endpoint and token must be configured"
  const BadEndpointMessage: string := "API endpoint must be a valid HTTP/HTTPS URL"

  /** `validate()`: true, or the first failed check's message. */
  function Validate(c: Config): (r: Result<bool, string>)
    ensures r.Success? ==> r.value
    ensures r.Success? <==> IsConfigured(c) && Urls.HasHttpPrefix(c.apiEndpoint.value)
    ensures !IsConfigured(c) ==> r == Failure(NotConfiguredMessage)
    ensures IsConfigured(c) && !Urls.HasHttpPrefix(c.apiEndpoint.value) ==> r == Failure(BadEndpointMessage)
  {
    if !IsConfigured(c) then Failure(NotConfiguredMessage)
    else if Given(c.apiEndpoint) && !Urls.HasHttpPrefix(c.apiEndpoint.value) then Failure(BadEndpointMessage)
    else Success(true)
  }

  /** The keyword arguments `get_api_client_config()` prepares for the client. */
  datatype ClientParams = ClientParams(baseUrl: Option<string>, token: Option<string>, timeout: int, verifySsl: bool)

  function ClientParamsOf(c: Config): (p: ClientParams)
    ensures p.baseUrl == c.apiEndpoint && p.token == c.apiToken
    ensures p.timeout == c.timeout && p.verifySsl == c.verifySsl
  {
    ClientParams(c.apiEndpoint, c.apiToken, c.timeout, c.verifySsl)
  }
}
