# cli-app core in Dafny

A model of the core of the `cli-app` Python command-line template:

- the settings record `Config` (cli_app/config.py): its defaults, the log-level and timeout validators, loading from a TOML table and file, saving, the default file location, `is_configured`, `validate` and `get_api_client_config`;
- the generic REST client `APIClient` and its `APIError` (cli_app/api_client.py): session headers, URL resolution, header merging, the rule that turns a transport outcome into a returned response or an error, the resource operations, the health check and closing;
- the part of cli_app/main.py that decides values: the two option validators, the option overrides of the group command, the settings `configure` saves, and how the resource commands build their client.

Everything is a pure function over immutable datatypes.
- The transport is a parameter `send: Request -> Outcome`. An outcome is either a transport failure with its cause, or a response with status, reason and JSON-decoded body (`None` when the body is not JSON).
- Each client operation returns a `Call`. It holds the request handed to the transport (`None` when nothing was sent) and what the Python method returns or raises.
- The foreign libraries appear as parameters:
  - TOML parsing, as the parser's verdict on the configuration file, held in the file state;
  - `json.loads`, as `parseJson`;
  - pydantic's `HttpUrl` check, `requests`' default session headers and `urljoin` outside the modelled URL shapes, all as `ApiClient.Library`.
- Filesystem state is a parameter too: whether a file exists and the parser's verdict on it, the environment variable `XDG_CONFIG_HOME` and the home directory.

Files:
- `wrappers.dfy`: `Option` and `Result`.
- `text.dfy`: Python string operations: `startswith`, `in`, `join` and `str(int)`, `upper` as far as it yields A-Z, and an ASCII-only lower-casing for header names.
- `json.dfy`: JSON values, plus Python's `in` and `[]` applied to them.
- `headers.dfy`: case-insensitive header maps.
- `urls.dfy`: `urljoin` for path references (section 5.2 of RFC 3986).
- `configuration.dfy`: cli_app/config.py.
- `api_client.dfy`: cli_app/api_client.py.
- `cli.dfy`: the slice of cli_app/main.py.

Behaviour of the code a reader may not expect:
- "ok" is `requests`' `Response.ok` (cli_app/api_client.py:100): every status outside 400..599 counts, 3xx included.
- The docstring of `_make_request` says it raises `APIError` (cli_app/api_client.py:75-76). But a not-ok response whose body decodes to JSON that is not an object can raise `TypeError` instead. This happens because `"message" in body` and `body["message"]` are Python operators applied to a string, list, number, boolean or null.
- The client's constructor accepts an empty token (cli_app/api_client.py:31, a plain `str`).
- Field assignment does not re-validate. So the timeout range and the upper-case level hold after construction only, not after the CLI's overrides.
- `from_env` is documented as loading from environment variables (cli_app/config.py:90-95), but it returns the defaults and reads none.
- The client's test at tests/test_api_client.py:118 expects the error text to match "Bad Request". The code yields "Invalid data" for that body, because "message" is preferred over "error" (`ApiClient.MessageBeatsError`).

## Model

| member | source | states |
|---|---|---|
| Text.IntToStringInjective | cli_app/api_client.py:101 | the decimal rendering of the status code loses nothing: equal renderings come from equal integers |
| JsonValues.PyIn | cli_app/api_client.py:104-106 | `key in body` is key membership for an object and raises TypeError exactly for null, booleans and numbers |
| JsonValues.PySubscript | cli_app/api_client.py:105-107 | `body[key]` succeeds exactly on an object, with that key's value |
| HeaderMap.UpdateLookup | cli_app/api_client.py:81-83 | after `update`, a name takes the last value given for it in the extra headers, whatever its spelling; every other name keeps its value |
| HeaderMap.UpdateKeepsKeys | cli_app/api_client.py:81-83 | merging headers never drops one that was present |
| Urls.Resolve | cli_app/api_client.py:78 | a resolved URL keeps the base URL's scheme and authority; an empty reference gives the base itself and any other reference is the tail of the result |
| Urls.ResolveAbsolutePath | cli_app/api_client.py:78 | a path starting with '/' replaces the base's whole path, so only the base's origin matters |
| Urls.ResolveAppends | cli_app/api_client.py:78 | a relative path is appended after a '/' to a base without a path, and directly to a base ending in '/' |
| Urls.ResolveReplacesLastSegment | cli_app/api_client.py:78 | a relative path replaces the last segment of a base path that does not end in '/' |
| Urls.ResolveExample | cli_app/api_client.py:78 | "https://api.example.com" joined with "test-endpoint" is "https://api.example.com/test-endpoint" |
| Configuration.Default | cli_app/config.py:18-41 | the defaults are no endpoint, no token, timeout 30, TLS verification on, level INFO and no file, and they pass validation |
| Configuration.CheckLogLevel | cli_app/config.py:48-54 | a level is accepted iff its upper-case form is one of the five; it is stored upper-cased; otherwise the error lists the five levels |
| Configuration.LogLevelCaseInsensitive | cli_app/config.py:48-54 | a level and its upper-case form get the same verdict and the same stored value |
| Configuration.CheckTimeout | cli_app/config.py:56-63 | a timeout is accepted unchanged iff it is in 1..300; at most 0 and above 300 fail with their own messages |
| Configuration.ErrorsOf | cli_app/config.py:48-63 | a validator contributes no complaint iff it accepted the value, else exactly its one complaint |
| Configuration.Assemble | cli_app/config.py:11-63 | construction succeeds iff every field is accepted, and it reports all complaints in field declaration order |
| Configuration.New | cli_app/config.py:18-63 | construction succeeds iff the timeout is in range and the level is known; the result is well formed with the level upper-cased; a timeout complaint comes first and a level complaint last |
| Configuration.FromTable | cli_app/config.py:84-85 | a table loads iff its field values have the declared types and pass the validators; present keys give the field values and absent keys give the defaults |
| Configuration.FromTableIgnoresUnknownKeys | cli_app/config.py:84-85 | keys other than the six field names do not affect loading |
| Configuration.FromEmptyTable | cli_app/config.py:84-85 | an empty table loads as the defaults |
| Configuration.SaveTable | cli_app/config.py:111-115 | the saved table holds the timeout as an integer, the verify flag as a boolean, the level as a string, and the endpoint and token as strings exactly when they are present; it never holds `config_file` |
| Configuration.SaveThenLoad | cli_app/config.py:111-115 | loading the saved table succeeds iff the timeout is in range and the level is known; it gives back every persisted field iff the record is well formed |
| Configuration.FromFile | cli_app/config.py:79-87 | a missing file gives not-found with its path; an unparsable file and a rejected table both give an invalid-file error; otherwise the table's record |
| Configuration.LoadErrorMessage | cli_app/config.py:81-87 | the not-found text carries the path, and every invalid-file text starts with "Invalid configuration file: " |
| Configuration.JoinPath | cli_app/config.py:132 | joining keeps the directory as a prefix and the component as a suffix |
| Configuration.DefaultPath | cli_app/config.py:123-136 | the path is under `XDG_CONFIG_HOME` when it is set and non-empty, else under `~/.config`, and always ends in "cli-app/config.toml" |
| Configuration.DefaultPathUnderXdg | cli_app/config.py:130-132 | with `XDG_CONFIG_HOME` set to a directory not ending in "/", the path is that directory + "/cli-app/config.toml" |
| Configuration.DefaultPathUnderHome | cli_app/config.py:135-136 | with the variable unset or empty, the path is the home directory + "/.config/cli-app/config.toml" |
| Configuration.Save | cli_app/config.py:98-115 | saving writes the saved table to the given path, or to the default path when none is given |
| Configuration.SaveFromFileRoundTrip | cli_app/config.py:79-115 | a well-formed record saved to a file loads back from it unchanged, apart from `config_file` |
| Configuration.IsConfiguredCases | cli_app/config.py:151-157 | configured iff both endpoint and token are present and non-empty; false in the other combinations |
| Configuration.Validate | cli_app/config.py:159-174 | the configuredness check comes first, then the http(s) prefix check, each with its message; otherwise true |
| Configuration.ClientParamsOf | cli_app/config.py:138-149 | the client settings are endpoint, token, timeout and verify flag, passed through unchanged |
| ApiClient.FallbackMessage | cli_app/api_client.py:101 | the fallback text starts with "API request failed: " and ends with the reason phrase |
| ApiClient.FallbackMessageInjective | cli_app/api_client.py:101 | two statuses with the same reason never share a fallback text |
| ApiClient.ExtractMessage | cli_app/api_client.py:101-109 | for an object body the message is "message", else "error", else the fallback; a non-JSON body gives the fallback; a JSON scalar raises TypeError; a string body succeeds iff it contains neither word |
| ApiClient.Normalise | cli_app/api_client.py:99-117 | an outcome is returned iff it is an ok response, unchanged; a not-ok response raises APIError with its status and response; a transport failure raises "Request failed: <cause>" with no status |
| ApiClient.NormaliseErrorShape | cli_app/api_client.py:99-117 | an APIError carries a status iff the server answered; transport failures and error bodies that are objects or not JSON always give APIError |
| ApiClient.MessageBeatsError | cli_app/api_client.py:104-111 | status 400 with body {"error": "Bad Request", "message": "Invalid data"} raises APIError("Invalid data", 400, response) |
| ApiClient.SessionHeadersExact | cli_app/api_client.py:43-51 | the session sends "Bearer " + token, "application/json" and "Python-CLI-App/0.1.0", whatever the spelling of the name asked for; any other header is the library default |
| ApiClient.NewClient | cli_app/api_client.py:39-51 | construction succeeds iff the base URL is accepted; the client keeps its settings; its session is open, verifies TLS iff `verify_ssl`, and carries the session headers |
| ApiClient.JoinUrl | cli_app/api_client.py:78 | on the modelled shapes the request URL is the reference resolution of the resource path against the base URL |
| ApiClient.BuildRequest | cli_app/api_client.py:78-94 | the request has the method, body, parameters and timeout given, the resolved URL, and the session's TLS policy; it keeps every session header |
| ApiClient.MergedHeaders | cli_app/api_client.py:80-83 | per-request headers override the session's on a case-insensitive match; every other session header is sent |
| ApiClient.Perform | cli_app/api_client.py:85-117 | exactly the built request is sent, and the call's result is the normalised outcome of sending it |
| ApiClient.MakeRequest | cli_app/api_client.py:53-117 | without keyword arguments the request is sent with the client's timeout; a `timeout` keyword raises TypeError and sends nothing |
| ApiClient.ResponseJson | cli_app/api_client.py:130 | an ok response yields its decoded body; a non-JSON body raises a decoding error; an earlier failure passes through |
| ApiClient.GetResource | cli_app/api_client.py:119-130 | a GET without body is sent with the client's timeout; the result is the body iff the server answered ok with JSON; an ok non-JSON answer raises the decoding error; every other outcome raises the error normalisation gives it |
| ApiClient.ListResources | cli_app/api_client.py:183-194 | the same request and the same results as getting the resource |
| ApiClient.ListIsGet | cli_app/api_client.py:183-194 | listing is the same call as getting |
| ApiClient.Decode | cli_app/api_client.py:143-147 | a dict body is used as is; a string body is parsed, and a parse failure raises "Invalid JSON data provided" |
| ApiClient.Write | cli_app/api_client.py:132-169 | nothing is sent when decoding fails; otherwise the decoded body is sent with the client's timeout; the result is the body iff the server answered ok with JSON, an ok non-JSON answer raises the decoding error, and every other outcome raises the error normalisation gives it |
| ApiClient.CreateResource | cli_app/api_client.py:132-150 | an unparsable string raises "Invalid JSON data provided" with nothing sent; otherwise a POST carries the decoded body; the result is the body iff the server answered ok with JSON, an ok non-JSON answer raises the decoding error, and every other outcome raises the error normalisation gives it |
| ApiClient.UpdateResource | cli_app/api_client.py:152-169 | an unparsable string raises "Invalid JSON data provided" with nothing sent; otherwise a PUT carries the decoded body; the result is the body iff the server answered ok with JSON, an ok non-JSON answer raises the decoding error, and every other outcome raises the error normalisation gives it |
| ApiClient.CreateUpdateDifferOnlyInMethod | cli_app/api_client.py:132-169 | creation and update send the same request apart from the method, and give the same result when the server does not tell them apart |
| ApiClient.DeleteResource | cli_app/api_client.py:171-181 | a DELETE is sent; it answers iff the response is ok, and answers true iff the status is 200 or 204; other outcomes raise what normalisation raises |
| ApiClient.DeleteOtherOkStatusIsFalse | cli_app/api_client.py:180-181 | any ok status other than 200 and 204 gives false |
| ApiClient.HealthVerdict | cli_app/api_client.py:202-206 | true iff the response has status 200; an APIError becomes false; only other exceptions propagate |
| ApiClient.HealthCheckAsWritten | cli_app/api_client.py:196-206 | as written the health check sends nothing and raises |
| ApiClient.HealthCheckAsWrittenAlwaysRaises | cli_app/api_client.py:203 | as written every health check raises TypeError without sending a request |
| ApiClient.HealthCheck | cli_app/api_client.py:196-206 | a GET to "health" with a 10-second timeout; every ok response answers whether its status is 200; every APIError, from a transport failure or an error status, gives false; only a TypeError from an error body that is not an object propagates |
| ApiClient.Close | cli_app/api_client.py:208-219 | closing, directly or on leaving the context manager, marks the session closed and changes nothing else |
| ApiClient.CloseIdempotent | cli_app/api_client.py:208-211 | closing twice is closing once |
| ApiClient.CloseKeepsRequests | cli_app/api_client.py:208-211 | a closed client builds the same requests as before |
| Cli.ValidateUrl | cli_app/main.py:15-19 | an absent or empty value and an http(s) value pass unchanged; anything else fails with "URL must start with http:// or https://" |
| Cli.ValidateJsonData | cli_app/main.py:22-30 | an absent or empty value and valid JSON pass unchanged; anything else fails with "Data must be valid JSON" |
| Cli.ValidatedDataDecodes | cli_app/main.py:22-30 | a non-empty `--data` value the validator accepts is decoded by `create_resource` and `update_resource` without raising, to the value the validator parsed |
| Cli.ValidatedUrlPassesConfigCheck | cli_app/main.py:15-19 | an endpoint the option validator accepts, with a token, passes `Config.validate` |
| Cli.ApplyOverrides | cli_app/main.py:116-124 | a non-empty endpoint or token replaces the loaded one; a timeout other than 30 replaces the loaded one and 30 keeps it; `--no-verify-ssl` turns verification off and its absence keeps the loaded flag; the level and file are untouched |
| Cli.NoOverridesIsIdentity | cli_app/main.py:116-124 | without options the loaded settings are used unchanged |
| Cli.OverridesIdempotent | cli_app/main.py:116-124 | applying the same options twice equals applying them once |
| Cli.ExplicitThirtyKeepsLoadedTimeout | cli_app/main.py:121-122 | `--timeout 30` acts as if the loaded timeout had been given, so it can never replace a loaded timeout other than 30 |
| Cli.OverrideCanBreakWellFormedness | cli_app/main.py:121-122 | every timeout option outside 1..300 (other than the default 30) is stored without validation, leaving settings that are not well formed |
| Cli.LoadSettings | cli_app/main.py:110-128 | with a config path the file is loaded and the options applied, and a load failure gives "Error loading configuration: " plus its text; without one the defaults are used |
| Cli.MissingFileStops | cli_app/main.py:110-128 | a configuration path whose file is missing at load time stops loading with "Error loading configuration: Configuration file not found: <path>" |
| Cli.ConfigureSettings | cli_app/main.py:186-191 | `configure` copies endpoint, token, timeout and level verbatim, sets verify to the negated flag, and sets no file |
| Cli.Configure | cli_app/main.py:185-193 | `configure` writes exactly those five values to the default path |
| Cli.ConfigureThenLoad | cli_app/main.py:186-193 | with a timeout in range, the saved file loads back as exactly the configured settings |
| Cli.ConfigureOutOfRangeUnloadable | cli_app/main.py:189-193 | a timeout outside 1..300 is saved, and the saved table can no longer be loaded |
| Cli.CommandClientAsWritten | cli_app/main.py:278-287 | unconfigured settings stop the command; configured settings yield a client iff the endpoint is an accepted URL, else the validation error; the client always waits 30 seconds and verifies TLS |
| Cli.CommandClient | cli_app/main.py:278-287 | corrected: the client is built from the configured endpoint, token, timeout and verify flag |
| Cli.CommandClientIgnoresOptions | cli_app/main.py:287 | after `--no-verify-ssl --timeout 5`, the client as written still verifies TLS and waits 30 seconds |
| Cli.CommandClientHonoursOptions | cli_app/main.py:287 | after the same options, the corrected client skips verification and waits 5 seconds |
| Cli.CommandClientsAgreeOnDefaults | cli_app/main.py:287 | the two constructions agree iff construction does not get that far or the settings hold timeout 30 with verification on |

## Left out

- File and process I/O are parameters, not effects. This covers file existence and reading, directory creation, writing the TOML file, and save's "Failed to save configuration" wrapping.
- TOML parsing and printing are not modelled. A present file carries the parser's verdict on its text.
- `Configuration.SaveFromFileRoundTrip`: assumes that parsing what was written gives back the saved table.
- JSON parsing is the parameter `parseJson`. JSON numbers are integers only; floating point is not modelled.
- Pydantic's `HttpUrl` check is the parameter `acceptsHttpUrl`. `str(base_url)` is taken to be the URL as given.
- `Configuration.FromTable`: does not model pydantic's lax coercion. A value of the wrong TOML type is rejected, where pydantic would convert some of them, such as the string "45" to a timeout.
- `Configuration.LoadErrorMessage`: renders a rejected table as its messages joined by newlines, not in pydantic's multi-line format with error locations and types.
- `Urls.Resolve`, `Urls.ResolveAbsolutePath`, `Urls.ResolveAppends`, `Urls.ResolveReplacesLastSegment`: cover only http(s) base URLs without query, fragment, parameters, empty segments or dot-segments. They cover only references that are plain paths without ':'. Base URLs and references holding a space or a control character are excluded as well, because `urlsplit` deletes tab, CR and LF and strips leading blanks before resolving. Base URLs whose authority holds '[', ']' or a non-ASCII character are excluded too, because `urlsplit` checks those as an IPv6 literal or by their NFKC form and can raise `ValueError`.
- `ApiClient.JoinUrl`: hands every other input to the library's `urljoin`, which is a parameter and always returns a URL. Where Python's `urljoin` raises `ValueError` (a malformed bracketed authority, or one whose NFKC form holds a URL delimiter), the program sends nothing and propagates the error; the model does not represent that exception and records the request as sent.
- `HeaderMap.Key`: folds header names with ASCII-only `lower`. `requests`' case-insensitive dictionary uses Python's Unicode `str.lower()`, so names that differ only in a non-ASCII letter's case ("Ä" and "ä") are one key in Python and two in the model. The client's own header names are ASCII.
- `Cli.MissingFileStops`: Click's `exists=True` check on `--config` (and `CLI_APP_CONFIG`) rejects a missing path with a usage error before the group command runs. The loading message is reached only when the file disappears between that check and the load; Click's check itself is not modelled.
- `Text.UpperChar`: covers only characters that Python upper-cases into A-Z. Every other character's case mapping is irrelevant to the level check.
- `Config.from_env` returns the defaults (`Configuration.Default`). The `CLI_APP_` environment prefix of the settings record has no effect.
- Click's option parsing, environment-variable options, `click.Choice` and the confirmation prompt are not modelled. `configure`'s level is assumed to be one of the five choices, as Click enforces.
- Console output is not modelled. This includes Rich tables and panels, the "API not configured" and other printed messages, exit codes, the `status` command, and output files of `fetch` and `create`. Reading `create`'s `--file` is also left out.
- Logging calls are not modelled.
- The session's connection pool is not modelled. `close` only marks the session closed, and `requests` can still send through a closed session, so no operation requires it to be open.
- Exceptions that are neither `requests` exceptions nor raised by the code itself are not modelled. An example is an exception raised inside the transport's own code.

## Findings

| source | as written | input that shows it | evidently intended | confidence | as-written member | corrected member |
|---|---|---|---|---|---|---|
| cli_app/api_client.py:203 | `health_check` passes `timeout=10` through `**kwargs`, and `_make_request` already passes `timeout=self.timeout` to the session call, so Python raises TypeError for a duplicate keyword argument | any call of `health_check()` on any client | a GET to "health" with a 10-second timeout, true iff the status is 200, false on APIError | high; not executed | ApiClient.HealthCheckAsWritten | ApiClient.HealthCheck |
| cli_app/main.py:287 | the commands build `APIClient(config.api_endpoint, config.api_token)`, so the client keeps the declared defaults of a 30-second timeout and TLS verification | `cli-app --no-verify-ssl --timeout 5 fetch -r users` | the client built from `get_api_client_config()`, so the loaded and overridden timeout and verify flag take effect | medium; not executed | Cli.CommandClientAsWritten | Cli.CommandClient |
