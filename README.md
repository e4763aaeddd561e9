# Sentinel Signal MCP: credential resolution, API client and settings

This is a Dafny model of the core of `sentinel-signal-mcp`. That server lets
an agent call the Sentinel Signal scoring API. The model covers three parts.

- **Credential resolution** (`credentials.py`). Before each call the server
  picks an API key. A static key from the settings wins first. Next comes a
  cached trial record, if it is well formed, not expired and pinned to the
  same base URLs. If trials are disabled, resolution then fails. Otherwise
  the server mints a trial key from the token service and writes it to the
  cache file with owner-only permissions.
- **The API client** (`client.py`). It builds the bearer headers, the
  scoring body and the usage query. It reads a response as JSON or as a
  raw-text wrapper, and turns transport failures and error statuses into
  `SentinelAPIError`.
- **Settings** (`config.py`). They are derived from the environment. The
  key is required, the base URL is defaulted and normalised, and the
  timeout has an order of precedence and must be positive.

Files:

- `wrappers.dfy`: `Option` and `Result`, which stand in for `None` and for
  raised exceptions.
- `pystrings.dfy`: the Python string operations the core uses. These are
  `strip()` with Python's exact whitespace set, `rstrip("/")`, `lower()`
  and the `in` substring test.
- `json.dfy`: decoded JSON values, Python truthiness, and `str(x or "")`.
- `http.dfy`: what the core sees of an `httpx` exchange.
- `config.py` is modelled in `config.dfy`, `credentials.py` in
  `credentials.dfy` and `client.py` in `client.dfy`.

Some inputs are parameters of the model:

- the wall clock is `now`;
- `datetime.fromisoformat` is `fromIso`;
- Python's `float()` is `parseFloat`;
- the HTTP transport is `send`, or the `mint` exchange for the token
  service.

The credential file system is the class `Credentials.CredentialStore`. It
holds a map from paths to files. A file has permission bits and a text. The
text is one of three things: unreadable, not UTF-8, or UTF-8 text, which is
given as what `json.loads` makes of it. `Load`, `Save` and `Remove` are
methods on the class. `ResolveCredentials` is a method that reads the store
and may write it. It is proved equal to the pure decision procedure
`Resolve`, and the properties are proved about `Resolve`.

## Notes on the code

- The client does not resolve credentials. `_request` calls
  `load_settings()`, which requires `SENTINEL_API_KEY`, and sends that key
  (client.py:45, config.py:21-23).
- The static key is tested for truthiness, not for being non-blank. A key
  of `" "` is returned with source `env` (credentials.py:119).
- `client.py` has no status classification. `SentinelAPIError` is a bare
  `RuntimeError` that carries the status and the payload's detail
  (client.py:10-11, 32-34).
- No base URL is checked for an `http://` or `https://` scheme. Only the
  timeout has a legacy variable name (config.py:25-32).
- `config.py` defines a four-field `Settings`, but `credentials.py` also
  reads a token base URL, a credentials path and `no_trial`. The tests build
  a settings value with those fields. The model gives the resolver its own
  `Credentials.Settings` with the six fields the tests construct
  (tests/test_credentials.py:25-33). `credentials.py` also reads `user_agent`
  (line 89); it reads that field and `timeout_seconds` (line 92) only to build
  the mint request, which is not modelled.
- `load_cached_credentials` catches `OSError` and `json.JSONDecodeError`
  only (credentials.py:37-40). A cache file that is not UTF-8 makes
  `read_text` raise `UnicodeDecodeError`, which escapes both it and
  `resolve_credentials`. The model keeps that behaviour: the resolver then
  fails with `CacheNotUtf8` and mints nothing.

## Model

| member | source | states |
|---|---|---|
| `PyStrings.Strip` | src/sentinel_signal_mcp/config.py:21 | `strip()` leaves no whitespace at either end and never lengthens the text |
| `PyStrings.LStripRemovesSpace` | src/sentinel_signal_mcp/config.py:21 | every character `lstrip()` drops from the front is whitespace |
| `PyStrings.RStripRemovesSpace` | src/sentinel_signal_mcp/config.py:21 | every character `rstrip()` drops from the end is whitespace |
| `PyStrings.StripShape` | src/sentinel_signal_mcp/config.py:21 | the input is leading whitespace, then the stripped text, then trailing whitespace |
| `PyStrings.StripUnchanged` | src/sentinel_signal_mcp/config.py:32 | a text with no whitespace at either end is left as it is, so `strip()` is idempotent |
| `PyStrings.StripBlankIff` | src/sentinel_signal_mcp/credentials.py:82 | a stripped text is empty exactly when every character was whitespace |
| `PyStrings.RStripSlash` | src/sentinel_signal_mcp/credentials.py:75-77 | `rstrip("/")` keeps a prefix, removes only slashes, and leaves no trailing slash |
| `PyStrings.RStripSlashEqIff` | src/sentinel_signal_mcp/credentials.py:77 | two texts are equal after `rstrip("/")` exactly when they differ only in their trailing slashes |
| `PyStrings.Lower` | src/sentinel_signal_mcp/client.py:23 | lowering keeps the length, maps each character on its own and leaves no upper-case ASCII letter |
| `PyStrings.ContainsIff` | src/sentinel_signal_mcp/client.py:24 | `needle in hay` holds exactly when the needle occurs at some position of the hay |
| `JsonValues.Digits` | src/sentinel_signal_mcp/credentials.py:75 | `str()` of a non-negative integer: decimal digits that denote the number (`DigitsValue`), with no leading zero |
| `JsonValues.TextOrEmpty` | src/sentinel_signal_mcp/credentials.py:75-76 | a missing or falsy stored field reads as `""` and a string field as itself |
| `Config.ApiKeyFrom` | src/sentinel_signal_mcp/config.py:21-23 | the key is empty exactly when `SENTINEL_API_KEY` is unset or all whitespace; otherwise it has no surrounding whitespace |
| `Config.ApiBaseUrlFrom` | src/sentinel_signal_mcp/config.py:25-26 | the base URL never ends in `/` |
| `Config.ApiBaseUrlChoice` | src/sentinel_signal_mcp/config.py:25-26 | an unset or blank variable gives the default; otherwise the stripped value with trailing slashes removed |
| `Config.SlashOnlyBaseUrl` | src/sentinel_signal_mcp/config.py:25-26 | a base URL of `///` normalises to the empty string |
| `Config.TimeoutTextFrom` | src/sentinel_signal_mcp/config.py:28-32 | `SENTINEL_TIMEOUT_SECONDS` if non-empty, else `SENTINEL_API_TIMEOUT_SECONDS` if non-empty, else `30.0`, stripped |
| `Config.BlankTimeoutRejected` | src/sentinel_signal_mcp/config.py:28-36 | a set but whitespace-only first timeout variable is still chosen and fails as not a number, whatever the legacy variable holds |
| `Config.DefaultTimeout` | src/sentinel_signal_mcp/config.py:28-36 | with neither timeout variable set, the settings carry the default 30 seconds |
| `Config.CheckedAsWritten` | src/sentinel_signal_mcp/config.py:22-44 | as written, the checks succeed exactly when the key is non-empty, the timeout parses and it is not `<= 0`; the settings then carry those values |
| `Config.Checked` | src/sentinel_signal_mcp/config.py:22-44 | with the corrected test, each error occurs exactly under its condition and a success carries a positive timeout |
| `Config.CheckedAgreesUnlessNan` | src/sentinel_signal_mcp/config.py:37-38 | the two positivity tests give the same result on every value but NaN |
| `Config.LoadSettingsAsWritten` | src/sentinel_signal_mcp/config.py:20-44 | as written, a successful result has a timeout that is not `<= 0`, which NaN satisfies |
| `Config.NanTimeoutAccepted` | src/sentinel_signal_mcp/config.py:37-38 | with `SENTINEL_TIMEOUT_SECONDS=nan`, the as-written loader succeeds with a timeout that is not positive |
| `Config.LoadSettings` | src/sentinel_signal_mcp/config.py:20-44 | each error occurs exactly under its condition; a success carries the stripped key, a base URL without a trailing slash, a positive timeout and the default user agent |
| `Config.LoadSettingsAgreesUnlessNan` | src/sentinel_signal_mcp/config.py:37-38 | the corrected loader differs from the source only when the timeout parses as NaN |
| `Credentials.LoadFrom` | src/sentinel_signal_mcp/credentials.py:34-43 | loading fails exactly when the file's bytes are not UTF-8; it gives a record exactly when the file holds a JSON object, and then gives that object unchanged; otherwise it gives `None` |
| `Credentials.LoadFromCatchingDecode` | src/sentinel_signal_mcp/credentials.py:37-40 | the loader with the decoding error caught as well: a non-UTF-8 file reads as `None`, and every other file reads as `LoadFrom` reads it |
| `Credentials.CredentialStore.Load` | src/sentinel_signal_mcp/credentials.py:34-43 | the method returns what `LoadFrom` describes for the current store, including its failure on a non-UTF-8 file |
| `Credentials.SavedFiles` | src/sentinel_signal_mcp/credentials.py:46-52 | after a save, loading the path gives the saved record back; its mode is 0o600, the temporary sibling is gone and other files are untouched |
| `Credentials.CredentialStore.Save` | src/sentinel_signal_mcp/credentials.py:46-52 | writing the temporary file, restricting it, renaming it and restricting again leaves the store as `SavedFiles` describes |
| `Credentials.CredentialStore.Remove` | src/sentinel_signal_mcp/credentials.py:55-60 | returns whether the file existed and leaves it absent; on a missing file it changes nothing, so a second remove returns false |
| `Credentials.ReplaceZ` | src/sentinel_signal_mcp/credentials.py:30-31 | replacing `Z` by `+00:00` leaves no `Z` and changes nothing in a text without one |
| `Credentials.ReplaceZSingle` | src/sentinel_signal_mcp/credentials.py:31 | a single `Z` becomes `+00:00` and any other single character stays |
| `Credentials.ReplaceZAppend` | src/sentinel_signal_mcp/credentials.py:31 | the replacement distributes over concatenation, so with `ReplaceZSingle` it is fixed on every text |
| `Credentials.IsExpired` | src/sentinel_signal_mcp/credentials.py:63-71 | (`_parse_dt` is `ParseDt`, `fromIso` after `ReplaceZ`) a missing, non-string or blank expiry is not expired; an unparsable one is; otherwise the record is expired once the expiry is at or before now |
| `Credentials.ExpiryIsMonotone` | src/sentinel_signal_mcp/credentials.py:71 | a record expired at some time is expired at every later time |
| `Credentials.ExpiryIgnoresLeadingSpace` | src/sentinel_signal_mcp/credentials.py:64-68 | whitespace in front of `expires_at` does not change the expiry verdict |
| `Credentials.BasesMatchIff` | src/sentinel_signal_mcp/credentials.py:74-77 | `bases_match` is the predicate `BasesMatch`; the bases match exactly when each stored URL and the given one differ only in trailing slashes |
| `Credentials.UsableApiKeyIff` | src/sentinel_signal_mcp/credentials.py:80-82 | `_validate_cached_credentials` is the predicate `HasUsableApiKey`; a record is valid exactly when its `api_key` is a string with at least one non-whitespace character |
| `Credentials.Stamped` | src/sentinel_signal_mcp/credentials.py:113-115 | the returned record has the body's keys plus both base-URL keys, keeps every other field, sets `api_base_url` and `token_base_url` to the settings' values (so `BasesMatch` holds), and keeps a usable `api_key` usable |
| `Credentials.FetchTrialKey` | src/sentinel_signal_mcp/credentials.py:94-115 | the body is `MintPayload` (the decoded JSON, or `{"raw_text": text}`, lines 97-100); a transport error or an error status each fail (the latter carrying status and body), a non-object body fails with `MintNotObject` and an object without a usable key with `MintMissingApiKey`; it succeeds exactly when the status is not an error, the body is an object and its `api_key` is a non-blank string (`HasUsableApiKey`), and the record it then returns is `Stamped` from the body |
| `Credentials.Resolve` | src/sentinel_signal_mcp/credentials.py:118-155 | a truthy static key wins with source `env`, no mint and no write; a non-UTF-8 cache file then fails with no mint; `cache` is returned exactly when the cached record is usable, with its key and the whole record tagged `source: cache` as metadata; `no_trial` then fails; otherwise exactly one mint: a `FetchTrialKey` failure is returned as is with nothing written, and its record is written whole and returned with source `trial` |
| `Credentials.ResolveCredentials` | src/sentinel_signal_mcp/credentials.py:118-155 | the method returns what `Resolve` decides for the loaded record; the store changes only by saving the minted record |
| `Credentials.MintedKeyIsReused` | src/sentinel_signal_mcp/credentials.py:131-155 | after a resolution that minted and cached a key, the next one with the same settings, before expiry, returns that key from the cache without minting |
| `Client.Headers` | src/sentinel_signal_mcp/client.py:14-19 | exactly three headers: a bearer credential that carries the configured key, `Accept: application/json`, and the configured user agent |
| `Client.JsonContentTypeDetected` | src/sentinel_signal_mcp/client.py:23-24 | the test is the predicate `IsJsonContentType`; any content type containing `application/json` in any letter case selects JSON parsing |
| `Client.ResponsePayload` | src/sentinel_signal_mcp/client.py:23-30 | the payload is the decoded JSON only under a JSON content type with a decodable body; otherwise it is `{"raw_text": text}` |
| `Client.ErrorDetail` | src/sentinel_signal_mcp/client.py:33 | an object payload is its own detail; any other payload is wrapped as `{"detail": payload}` |
| `Client.ParseResponse` | src/sentinel_signal_mcp/client.py:22-35 | an error status always raises with the payload's detail; any other status returns the payload unchanged |
| `Client.Request` | src/sentinel_signal_mcp/client.py:38-55 | the request is built by `BuildRequest` (lines 47-52); bad settings raise before sending; a transport failure raises and never yields a payload; a success is the payload of a non-error response to the request built from the settings |
| `Client.ScoreBody` | src/sentinel_signal_mcp/client.py:64-69 | the body holds the workflow and payload, and holds `options` exactly when options are given |
| `Client.UsageParams` | src/sentinel_signal_mcp/client.py:78-80 | a query `{"month": month}` is sent exactly when the month is non-empty, otherwise no query |

## Left out

- The HTTP transport is not modelled. The `httpx` calls are the `send`
  function and the `mint` exchange. A transport failure or a response
  (status, content type, decoded body, text) is all the core sees. URL
  joining is plain concatenation.
- The mint request itself is not modelled: the URL `/v1/keys/trial` and the
  `Accept` and `User-Agent` headers of credentials.py:86-90. Only its answer
  is.
- The `asyncio.Lock` around resolution is not modelled, because it is
  concurrency. Resolution is one sequential method. The "one mint per
  concurrent cold start" guarantee is not covered. `MintedKeyIsReused`
  states the sequential counterpart.
- Filesystem mechanics are not modelled: creating parent directories, the
  atomicity of the rename, and the JSON layout (`indent`, `sort_keys`).
  Neither are OS errors other than a missing file in `remove` and an
  unreadable file in `load`. The mode a new temporary file gets before its
  `chmod` is taken to be 0o644. It does not affect the final state.
- ISO-8601 parsing and the clock are parameters. A naive timestamp compared
  with an aware `now` raises `TypeError` at credentials.py:71, and that case
  is not modelled: `fromIso` yields aware instants only.
- `float()` is the `parseFloat` parameter. Its results include infinities
  and NaN.
- JSON numbers are integers in the model. `str()` of a stored list or dict
  base URL is written as `[...]` or `{...}`, not with its contents.
- `Client.Request`: uses the corrected loader `Config.LoadSettings`. With
  `SENTINEL_TIMEOUT_SECONDS=nan` the source's `_request` goes on to send the
  request with a NaN timeout, while the model fails with
  `SettingsInvalid(TimeoutNotPositive)` and never calls `send`.
- `PyStrings.Lower`: only ASCII letters are lowered. Python's `lower()` also
  maps other Unicode letters.
- Error messages are not modelled as text. Errors carry their status and
  payload detail as fields.
- The status classification (402/429/401) that `tests/test_client_errors.py`
  expects is not modelled. The function that test imports,
  `_raise_for_error_response`, is not in `client.py`.
- `server.py` is not part of this model. It is tool-registration glue that
  wraps non-dict results as `{"result": ...}`.
- `score_workflow`, `get_limits`, `get_usage` and `submit_feedback` are the
  functions `Client.ScoreWorkflow`, `Client.GetLimits`, `Client.GetUsage`
  and `Client.SubmitFeedback`. Each is one call of `Client.Request`, so they
  carry no contract of their own.
- `fetch_trial_key` updates the freshly decoded response dict in place. No
  other reference to that dict exists, so the model uses a map update.

## Findings

| source | as written | input that shows it | evidently intended | confidence | as-written member | corrected member |
|---|---|---|---|---|---|---|
| src/sentinel_signal_mcp/config.py:37-38 | the check `timeout_seconds <= 0` is false for NaN, so a NaN timeout is accepted | `SENTINEL_API_KEY=k` and `SENTINEL_TIMEOUT_SECONDS=nan`: `float("nan")` is NaN, which passes the check; shown by `Config.NanTimeoutAccepted` | settings always carry a positive timeout, as the message "must be > 0" says | medium, not executed | `Config.LoadSettingsAsWritten` | `Config.LoadSettings` |
| src/sentinel_signal_mcp/credentials.py:37-40 | a cache file that is not UTF-8 raises `UnicodeDecodeError`, which the `except (OSError, json.JSONDecodeError)` does not catch, so loading and then resolution raise | a cache file holding the single byte `0xff`: `read_text(encoding="utf-8")` raises, as `Credentials.LoadFrom` states for a `NotUtf8` file | a corrupt cache file reads as absent, like unreadable or malformed ones, and a fresh key is minted | medium, not executed | `Credentials.LoadFrom` | `Credentials.LoadFromCatchingDecode` |
