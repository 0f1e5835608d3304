/** The part of the command-line layer (cli_app/main.py) that decides
    values rather than printing them: the two option validators, the
    settings the group command assembles from the file and its options, the
    settings `configure` saves, and the client the resource commands build. */
module Cli {
  import opened Wrappers
  import Text
  import Urls
  import opened JsonValues
  import opened Configuration
  import ApiClient

  const BadUrlMessage: string := "URL must start with http:// or https://"
  const BadJsonMessage: string := "Data must be valid JSON"

  /** `validate_url`: an absent or empty value passes, as does an http(s)
      URL; the value is never changed. */
  function ValidateUrl(value: Option<string>): (r: Result<Option<string>, string>)
    ensures r.Success? <==> !Given(value) || Urls.HasHttpPrefix(value.value)
    ensures r.Success? ==> r.value == value
    ensures r.Failure? ==> r.error == BadUrlMessage
  {
    if Given(value) && !Urls.HasHttpPrefix(value.value) then Failure(BadUrlMessage) else Success(value)
  }

  /** `validate_json_data`, with `parseJson` standing for `json.loads`
      (`None`: `JSONDecodeError`). */
  function ValidateJsonData(value: Option<string>, parseJson: string -> Option<Json>): (r: Result<Option<string>, string>)
    ensures r.Success? <==> !Given(value) || parseJson(value.value).Some?
    ensures r.Success? ==> r.value == value
    ensures r.Failure? ==> r.error == BadJsonMessage
  {
    if Given(value) && parseJson(value.value).None? then Failure(BadJsonMessage) else Success(value)
  }

  /** A non-empty `--data` value the JSON validator accepts is one
      `create_resource` and `update_resource` decode without raising. */
  lemma ValidatedDataDecodes(s: string, parseJson: string -> Option<Json>)
    requires s != "" && ValidateJsonData(Some(s), parseJson).Success?
    ensures ApiClient.Decode(ApiClient.Raw(s), parseJson).Success?
    ensures ApiClient.Decode(ApiClient.Raw(s), parseJson).value == parseJson(s).value
  {
  }

  /** A value the URL validator accepts is one `Config.validate` accepts as
      an endpoint, once a token is present. */
  lemma ValidatedUrlPassesConfigCheck(c: Config)
    requires Given(c.apiEndpoint) && Given(c.apiToken)
    requires ValidateUrl(c.apiEndpoint).Success?
    ensures Configuration.Validate(c) == Success(true)
  {
  }

  // ---------------------------------------------------------------------
  // The group command's settings

  const DefaultTimeoutOption: int := 30

  /** The group command's `--endpoint`, `--token`, `--timeout` and
      `--no-verify-ssl` values. */
  datatype Overrides = Overrides(endpoint: Option<string>, token: Option<string>, timeout: int, noVerifySsl: bool)

  /** The options as they are when none is given. */
  const NoOverrides: Overrides := Overrides(None, None, DefaultTimeoutOption, false)

  /** Plain field assignments, which the settings record does not
      re-validate. */
  function ApplyOverrides(c: Config, o: Overrides): (r: Config)
    ensures Given(o.endpoint) ==> r.apiEndpoint == o.endpoint
    ensures !Given(o.endpoint) ==> r.apiEndpoint == c.apiEndpoint
    ensures Given(o.token) ==> r.apiToken == o.token
    ensures !Given(o.token) ==> r.apiToken == c.apiToken
    ensures o.timeout != DefaultTimeoutOption ==> r.timeout == o.timeout
    ensures o.timeout == DefaultTimeoutOption ==> r.timeout == c.timeout
    ensures o.noVerifySsl ==> !r.verifySsl
    ensures !o.noVerifySsl ==> r.verifySsl == c.verifySsl
    ensures r.logLevel == c.logLevel && r.configFile == c.configFile
  {
    var withEndpoint := if Given(o.endpoint) then c.(apiEndpoint := o.endpoint) else c;
    var withToken := if Given(o.token) then withEndpoint.(apiToken := o.token) else withEndpoint;
    var withTimeout := if o.timeout != DefaultTimeoutOption then withToken.(timeout := o.timeout) else withToken;
    if o.noVerifySsl then withTimeout.(verifySsl := false) else withTimeout
  }

  /** Without options the loaded settings are used as they are. */
  lemma NoOverridesIsIdentity(c: Config)
    ensures ApplyOverrides(c, NoOverrides) == c
  {
  }

  /** Applying the same options twice changes nothing more. */
  lemma OverridesIdempotent(c: Config, o: Overrides)
    ensures ApplyOverrides(ApplyOverrides(c, o), o) == ApplyOverrides(c, o)
  {
  }

  /** `--timeout 30` cannot be told apart from the loaded timeout given
      again: whatever the file says (60, say) survives it, so the option
      can never bring the timeout back to 30. */
  lemma ExplicitThirtyKeepsLoadedTimeout(c: Config, o: Overrides)
    ensures ApplyOverrides(c, o.(timeout := DefaultTimeoutOption)) == ApplyOverrides(c, o.(timeout := c.timeout))
    ensures c.timeout != DefaultTimeoutOption ==> ApplyOverrides(c, o.(timeout := DefaultTimeoutOption)).timeout != DefaultTimeoutOption
  {
  }

  /** An out-of-range timeout option is taken as given: the result is no
      longer well formed, and nothing reports it. */
  lemma OverrideCanBreakWellFormedness(c: Config, t: int)
    requires t != DefaultTimeoutOption && !ValidTimeout(t)
    ensures !WellFormed(ApplyOverrides(c, Overrides(None, None, t, false)))
  {
  }

  const LoadingPrefix: string := "Error loading configuration: "

  /** The group command's loading: `Config.from_file` when a path was
      given (`--config` or `CLI_APP_CONFIG`), the defaults otherwise, then
      the options; a load failure ends the program with its message. */
  function LoadSettings(configPath: Option<string>, file: FileState, o: Overrides): (r: Result<Config, string>)
    ensures !Given(configPath) ==> r == Success(ApplyOverrides(Default(), o))
    ensures Given(configPath) ==>
      var loaded := FromFile(configPath.value, file);
      && (r.Success? <==> loaded.Success?)
      && (r.Success? ==> r.value == ApplyOverrides(loaded.value, o))
      && (r.Failure? ==> r.error == LoadingPrefix + LoadErrorMessage(loaded.error))
    ensures r.Failure? ==> Text.StartsWith(r.error, LoadingPrefix)
  {
    if !Given(configPath) then Success(ApplyOverrides(Default(), o))
    else
      match FromFile(configPath.value, file)
      case Failure(e) => Failure(LoadingPrefix + LoadErrorMessage(e))
      case Success(c) => Success(ApplyOverrides(c, o))
  }

  /** A configuration path whose file is missing when it is loaded stops
      the program whatever the options say. Click's own existence check on
      `--config` and `CLI_APP_CONFIG` rejects a path that is missing before
      the group command runs, so this message is reached only when the file
      disappears between that check and the load. */
  lemma MissingFileStops(path: string, o: Overrides)
    requires path != ""
    ensures LoadSettings(Some(path), Missing, o) ==
      Failure(LoadingPrefix + "Configuration file not found: " + path)
  {
    assert LoadErrorMessage(NotFound(path)) == NotFoundPrefix + path;
    assert LoadingPrefix + (NotFoundPrefix + path) == LoadingPrefix + NotFoundPrefix + path;
  }

  // ---------------------------------------------------------------------
  // configure

  /** The record `configure` fills in by assignment before saving. */
  function ConfigureSettings(endpoint: string, token: string, timeout: int, noVerifySsl: bool, logLevel: string): (c: Config)
    ensures c.apiEndpoint == Some(endpoint) && c.apiToken == Some(token)
    ensures c.timeout == timeout && c.verifySsl == !noVerifySsl && c.logLevel == logLevel
    ensures c.configFile.None?
  {
    Default().(apiEndpoint := Some(endpoint), apiToken := Some(token), timeout := timeout,
               verifySsl := !noVerifySsl, logLevel := logLevel)
  }

  /** `configure`: what is written, and where (the default location). */
  function Configure(endpoint: string, token: string, timeout: int, noVerifySsl: bool, logLevel: string, env: Env): (r: SaveRequest)
    ensures r.path == DefaultPath(env)
    ensures r.table.Keys == {"api_endpoint", "api_token", "timeout", "verify_ssl", "log_level"}
    ensures r.table["api_endpoint"] == TString(endpoint) && r.table["api_token"] == TString(token)
    ensures r.table["timeout"] == TInteger(timeout) && r.table["verify_ssl"] == TBool(!noVerifySsl)
    ensures r.table["log_level"] == TString(logLevel)
  {
    Save(ConfigureSettings(endpoint, token, timeout, noVerifySsl, logLevel), None, env)
  }

  /** With a timeout in range (the level is one of the choices the option
      offers), the saved file loads back as exactly the configured
      settings. */
  lemma ConfigureThenLoad(endpoint: string, token: string, timeout: int, noVerifySsl: bool, logLevel: string, env: Env)
    requires 1 <= timeout <= 300 && logLevel in Levels
    ensures FromTable(Configure(endpoint, token, timeout, noVerifySsl, logLevel, env).table)
         == Success(ConfigureSettings(endpoint, token, timeout, noVerifySsl, logLevel))
  {
    SaveThenLoad(ConfigureSettings(endpoint, token, timeout, noVerifySsl, logLevel));
  }

  /** `configure` does not check the timeout, so a timeout outside 1..300
      is saved to a file that can no longer be loaded. */
  lemma ConfigureOutOfRangeUnloadable(endpoint: string, token: string, timeout: int, noVerifySsl: bool, logLevel: string, env: Env)
    requires !(1 <= timeout <= 300)
    ensures FromTable(Configure(endpoint, token, timeout, noVerifySsl, logLevel, env).table).Failure?
  {
    SaveThenLoad(ConfigureSettings(endpoint, token, timeout, noVerifySsl, logLevel));
  }

  // ---------------------------------------------------------------------
  // The client the resource commands use

  datatype CommandError = NotConfigured | ClientFault(fault: ApiClient.Fault)

  /** How `fetch`, `create`, `update`, `delete` and `health` obtain their
      client as written: `APIClient(config.api_endpoint, config.api_token)`,
      so the client always has the declared defaults. */
  function CommandClientAsWritten(lib: ApiClient.Library, c: Config): (r: Result<ApiClient.Client, CommandError>)
    ensures !IsConfigured(c) ==> r == Failure(NotConfigured)
    ensures IsConfigured(c) ==> (r.Success? <==> lib.acceptsHttpUrl(c.apiEndpoint.value))
    ensures r.Failure? && IsConfigured(c) ==> r.error == ClientFault(ApiClient.ValidationErrorRaised)
    ensures r.Success? ==> IsConfigured(c) && r.value.baseUrl == c.apiEndpoint.value && r.value.token == c.apiToken.value
    ensures r.Success? ==> r.value.timeout == 30 && r.value.verifySsl && r.value.session.verify
  {
    if !IsConfigured(c) then Failure(NotConfigured)
    else
      match ApiClient.NewClient(lib, c.apiEndpoint.value, c.apiToken.value, 30, true)
      case Failure(f) => Failure(ClientFault(f))
      case Success(client) => Success(client)
  }

  /** The commands as evidently intended: the client built from all of
      `get_api_client_config()`, so `--timeout` and `--no-verify-ssl`
      take effect. */
  function CommandClient(lib: ApiClient.Library, c: Config): (r: Result<ApiClient.Client, CommandError>)
    ensures !IsConfigured(c) ==> r == Failure(NotConfigured)
    ensures IsConfigured(c) ==> (r.Success? <==> lib.acceptsHttpUrl(c.apiEndpoint.value))
    ensures r.Success? ==> r.value.baseUrl == c.apiEndpoint.value && r.value.token == c.apiToken.value
    ensures r.Success? ==> r.value.timeout == c.timeout && r.value.session.verify == c.verifySsl
  {
    if !IsConfigured(c) then Failure(NotConfigured)
    else
      var p := ClientParamsOf(c);
      match ApiClient.NewClient(lib, p.baseUrl.value, p.token.value, p.timeout, p.verifySsl)
      case Failure(f) => Failure(ClientFault(f))
      case Success(client) => Success(client)
  }

  /** As written, `cli-app --no-verify-ssl --timeout 5 fetch -r users`
      still verifies certificates and waits 30 seconds. */
  lemma CommandClientIgnoresOptions(lib: ApiClient.Library, loaded: Config)
    requires IsConfigured(loaded)
    requires lib.acceptsHttpUrl(loaded.apiEndpoint.value)
    ensures
      var c := ApplyOverrides(loaded, Overrides(None, None, 5, true));
      && CommandClientAsWritten(lib, c).Success?
      && CommandClientAsWritten(lib, c).value.session.verify
      && CommandClientAsWritten(lib, c).value.timeout == 30
      && !c.verifySsl && c.timeout == 5
  {
  }

  /** The corrected client agrees with the settings the options produced. */
  lemma CommandClientHonoursOptions(lib: ApiClient.Library, loaded: Config)
    requires IsConfigured(loaded)
    requires lib.acceptsHttpUrl(loaded.apiEndpoint.value)
    ensures
      var c := ApplyOverrides(loaded, Overrides(None, None, 5, true));
      && CommandClient(lib, c).Success?
      && !CommandClient(lib, c).value.session.verify
      && CommandClient(lib, c).value.timeout == 5
  {
  }

  /** Both constructions agree exactly when the settings hold the defaults. */
  lemma CommandClientsAgreeOnDefaults(lib: ApiClient.Library, c: Config)
    ensures CommandClient(lib, c) == CommandClientAsWritten(lib, c) <==>
      (!IsConfigured(c) || !lib.acceptsHttpUrl(c.apiEndpoint.value) || (c.timeout == 30 && c.verifySsl))
  {
  }
}
