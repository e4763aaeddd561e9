/** Credential resolution and the on-disk credential cache
    (src/sentinel_signal_mcp/credentials.py). Before each call the core
    decides which API key to use: a static key from the settings, else a
    cached trial record that is well formed, unexpired and pinned to the
    same base URLs, else (unless trials are disabled) a freshly minted
    trial key, which is then cached. The wall clock is the parameter `now`,
    `datetime.fromisoformat` is the parameter `fromIso`, and the mint call
    is the exchange `mint` that the token service would answer with. */
module Credentials {
  import opened Wrappers
  import opened PyStrings
  import opened JsonValues
  import opened Http
  import Config

  type Path = string

  /** A point in time, in seconds, with a known UTC offset. */
  type Instant = int

  /** `datetime.fromisoformat`: the instant a text denotes, or `None` when it
      raises `ValueError`. */
  type IsoParser = string -> Option<Instant>

  /** Permission bits 0o600: read and write for the owner only. */
  const OwnerReadWrite: int := 384

  /** Permission bits 0o644, which `write_text` gives a file it creates under
      the usual umask 022. */
  const CreatedFileMode: int := 420

  /** The six settings fields the tests construct for the resolver: both
      base URLs, the optional static key, where the cache lives, whether
      auto-trial is off, and the timeout. The resolver reads the first five;
      the timeout and `user_agent` feed only the mint request, which is not
      modelled. */
  datatype Settings = Settings(
    apiBaseUrl: string,
    tokenBaseUrl: string,
    apiKey: Option<string>,
    credentialsPath: Path,
    noTrial: bool,
    timeoutSeconds: Config.Float)

  /** What `path.read_text(encoding="utf-8")` finds in a file: reading fails
      with an `OSError`, the bytes are not UTF-8 (a `UnicodeDecodeError`), or
      a text, given here as what `json.loads` makes of it (`None` when it is
      not valid JSON). */
  datatype FileText = Unreadable | NotUtf8 | Utf8(json: Option<Json>)

  /** A file of the store: its text and its permission bits. */
  datatype StoredFile = StoredFile(text: FileText, mode: int)

  /** The one way `load_cached_credentials` fails: the `UnicodeDecodeError`
      of a file that is not UTF-8, which its `except (OSError,
      json.JSONDecodeError)` does not catch. */
  datatype LoadError = UndecodableFile

  /** `path.with_name(path.name + ".tmp")`, the sibling written first. */
  function TmpPath(path: Path): (tmp: Path)
    ensures tmp != path
  {
    path + ".tmp"
  }

  /** What `load_cached_credentials` does for a store, as written: the JSON
      object the file holds; `None` when the file is missing, unreadable, not
      JSON or JSON that is not an object; and a raised error when its bytes
      are not UTF-8. */
  function LoadFrom(files: map<Path, StoredFile>, path: Path): (r: Result<Option<Object>, LoadError>)
    ensures r.Failure? <==> path in files && files[path].text == NotUtf8
    ensures r.Success? && r.value.Some? <==>
      && path in files && files[path].text.Utf8?
      && files[path].text.json.Some? && files[path].text.json.value.JObj?
    ensures r.Success? && r.value.Some? ==> files[path].text == Utf8(Some(JObj(r.value.value)))
  {
    if path !in files then Success(None)
    else match files[path].text
      case Unreadable => Success(None)
      case NotUtf8 => Failure(UndecodableFile)
      case Utf8(json) =>
        if json.Some? && json.value.JObj? then Success(Some(json.value.fields)) else Success(None)
  }

  /** `load_cached_credentials` as it is evidently meant to behave, catching
      the decoding error as well: it never raises, a file that is not UTF-8
      reads as absent, and every other file reads as the source reads it. */
  function LoadFromCatchingDecode(files: map<Path, StoredFile>, path: Path): (r: Option<Object>)
    ensures path in files && files[path].text == NotUtf8 ==> r == None
    ensures LoadFrom(files, path).Success? ==> r == LoadFrom(files, path).value
    ensures r.Some? ==> path in files && files[path].text == Utf8(Some(JObj(r.value)))
  {
    if path in files && files[path].text == NotUtf8 then None
    else match LoadFrom(files, path)
      case Success(record) => record
      case Failure(_) => None
  }

  /** The store after `save_cached_credentials(path, payload)`: loading
      `path` gives `payload` back, the file is owner read/write only, the
      temporary sibling is gone, and no other file changed. */
  function SavedFiles(files: map<Path, StoredFile>, path: Path, payload: Object): (r: map<Path, StoredFile>)
    ensures LoadFrom(r, path) == Success(Some(payload))
    ensures path in r && r[path].mode == OwnerReadWrite
    ensures TmpPath(path) !in r
    ensures forall p :: p != path && p != TmpPath(path) ==> (p in r <==> p in files)
    ensures forall p :: p != path && p != TmpPath(path) && p in r ==> r[p] == files[p]
  {
    (files - {TmpPath(path)})[path := StoredFile(Utf8(Some(JObj(payload))), OwnerReadWrite)]
  }

  /** The credential file system: a map from paths to files. */
  class CredentialStore {
    var files: map<Path, StoredFile>

    constructor (files: map<Path, StoredFile>)
      ensures this.files == files
    {
      this.files := files;
    }

    /** `load_cached_credentials`: reads nothing but `path`, and raises only
        on a file that is not UTF-8. */
    method Load(path: Path) returns (r: Result<Option<Object>, LoadError>)
      ensures r == LoadFrom(files, path)
    {
      if path !in files {
        return Success(None);
      }
      var text := files[path].text;
      if text.Unreadable? {
        return Success(None);
      }
      if text.NotUtf8? {
        return Failure(UndecodableFile);
      }
      if text.json.None? || !text.json.value.JObj? {
        return Success(None);
      }
      return Success(Some(text.json.value.fields));
    }

    /** `save_cached_credentials`: write the temporary sibling, restrict it,
        rename it over `path`, restrict `path` again. */
    method Save(path: Path, payload: Object)
      modifies this
      ensures files == SavedFiles(old(files), path, payload)
    {
      var tmp := TmpPath(path);
      var mode := if tmp in files then files[tmp].mode else CreatedFileMode;
      files := files[tmp := StoredFile(Utf8(Some(JObj(payload))), mode)];
      files := files[tmp := files[tmp].(mode := OwnerReadWrite)];
      files := (files - {tmp})[path := files[tmp]];
      files := files[path := files[path].(mode := OwnerReadWrite)];
    }

    /** `remove_cached_credentials`: whether a file was there to delete; a
        missing file is not an error and changes nothing. */
    method Remove(path: Path) returns (removed: bool)
      modifies this
      ensures removed <==> path in old(files)
      ensures files == old(files) - {path}
      ensures !removed ==> files == old(files)
    {
      if path in files {
        files := files - {path};
        removed := true;
      } else {
        removed := false;
      }
    }
  }

  /** `value.replace("Z", "+00:00")`: no `Z` is left, and a text without
      one is unchanged. */
  function ReplaceZ(s: string): (r: string)
    ensures forall i :: 0 <= i < |r| ==> r[i] != 'Z'
    ensures (forall i :: 0 <= i < |s| ==> s[i] != 'Z') ==> r == s
  {
    if s == [] then []
    else (if s[0] == 'Z' then "+00:00" else [s[0]]) + ReplaceZ(s[1..])
  }

  /** `replace` works character by character: a `Z` becomes `+00:00` and
      any other character stays. */
  lemma ReplaceZSingle(c: char)
    ensures ReplaceZ([c]) == if c == 'Z' then "+00:00" else [c]
  {
    assert [c][1..] == [];
  }

  /** `replace` distributes over concatenation; with `ReplaceZSingle` this
      fixes `ReplaceZ` on every text. */
  lemma {:induction false} ReplaceZAppend(a: string, b: string)
    ensures ReplaceZ(a + b) == ReplaceZ(a) + ReplaceZ(b)
  {
    if a == [] {
      assert a + b == b;
    } else {
      assert (a + b)[0] == a[0];
      assert (a + b)[1..] == a[1..] + b;
      ReplaceZAppend(a[1..], b);
    }
  }

  /** `_parse_dt`. */
  function ParseDt(fromIso: IsoParser, value: string): Option<Instant>
  {
    fromIso(ReplaceZ(value))
  }

  /** The record carries an `expires_at` string that is not blank. */
  predicate HasExpiry(creds: Object)
  {
    "expires_at" in creds && creds["expires_at"].JStr? && Strip(creds["expires_at"].s) != ""
  }

  /** `is_expired`: a missing, non-string or blank expiry never expires, an
      unparsable one has expired, and otherwise the record has expired once
      `now` has reached the expiry (equality counts as expired). */
  function IsExpired(creds: Object, now: Instant, fromIso: IsoParser): (r: bool)
    ensures !HasExpiry(creds) ==> !r
    ensures HasExpiry(creds) ==>
      var parsed := ParseDt(fromIso, Strip(creds["expires_at"].s));
      (parsed.None? ==> r) && (parsed.Some? ==> (r <==> parsed.value <= now))
  {
    var expiresAt := if "expires_at" in creds then creds["expires_at"] else JNull;
    if !expiresAt.JStr? || Strip(expiresAt.s) == "" then false
    else match ParseDt(fromIso, Strip(expiresAt.s))
      case None => true
      case Some(expiry) => expiry <= now
  }

  /** Once expired, a record stays expired. */
  lemma ExpiryIsMonotone(creds: Object, now: Instant, later: Instant, fromIso: IsoParser)
    requires now <= later && IsExpired(creds, now, fromIso)
    ensures IsExpired(creds, later, fromIso)
  {
  }

  /** Whitespace in front of `expires_at` does not change the verdict. */
  lemma ExpiryIgnoresLeadingSpace(creds: Object, c: char, s: string, now: Instant, fromIso: IsoParser)
    requires IsSpace(c)
    ensures IsExpired(creds["expires_at" := JStr([c] + s)], now, fromIso)
        == IsExpired(creds["expires_at" := JStr(s)], now, fromIso)
  {
    StripLeadingSpace(c, s);
  }

  /** `bases_match`: the stored base URLs (missing or falsy ones read as the
      empty string) equal the given ones once trailing slashes are removed
      on both sides. */
  predicate BasesMatch(creds: Object, apiBaseUrl: string, tokenBaseUrl: string)
  {
    && RStripSlash(TextOrEmpty(creds, "api_base_url")) == RStripSlash(apiBaseUrl)
    && RStripSlash(TextOrEmpty(creds, "token_base_url")) == RStripSlash(tokenBaseUrl)
  }

  /** The base URLs match exactly when each stored one and the given one
      differ at most in how many slashes they end with. */
  lemma BasesMatchIff(creds: Object, apiBaseUrl: string, tokenBaseUrl: string)
    ensures BasesMatch(creds, apiBaseUrl, tokenBaseUrl) <==>
      && SameUpToTrailingSlashes(TextOrEmpty(creds, "api_base_url"), apiBaseUrl)
      && SameUpToTrailingSlashes(TextOrEmpty(creds, "token_base_url"), tokenBaseUrl)
  {
    RStripSlashEqIff(TextOrEmpty(creds, "api_base_url"), apiBaseUrl);
    RStripSlashEqIff(TextOrEmpty(creds, "token_base_url"), tokenBaseUrl);
  }

  /** `_validate_cached_credentials`: `api_key` is a string that is not
      blank. */
  predicate HasUsableApiKey(creds: Object)
  {
    "api_key" in creds && creds["api_key"].JStr? && Strip(creds["api_key"].s) != ""
  }

  /** A usable key is a string field with at least one character that is not
      whitespace. */
  lemma UsableApiKeyIff(creds: Object)
    ensures HasUsableApiKey(creds) <==>
      && "api_key" in creds && creds["api_key"].JStr?
      && exists i :: 0 <= i < |creds["api_key"].s| && !IsSpace(creds["api_key"].s[i])
  {
    if "api_key" in creds && creds["api_key"].JStr? {
      StripBlankIff(creds["api_key"].s);
    }
  }

  /** Why no credential could be produced: the cases of
      `CredentialResolutionError`, and `CacheNotUtf8` for the
      `UnicodeDecodeError` that `load_cached_credentials` lets through. */
  datatype CredentialError =
    | MintTransportFailed
    | MintRejected(status: int, payload: Json)
    | MintNotObject
    | MintMissingApiKey
    | TrialDisabled
    | CacheNotUtf8

  /** The mint response body: `response.json()`, or `{"raw_text": text}`
      when the body is not JSON. */
  function MintPayload(response: Response): Json
  {
    if response.decoded.Some? then response.decoded.value else RawText(response.text)
  }

  /** The minted record: the response body with `api_base_url` and
      `token_base_url` set to the current base URLs, every other field
      kept. */
  function Stamped(body: Object, settings: Settings): (r: Object)
    ensures r.Keys == body.Keys + {"api_base_url", "token_base_url"}
    ensures forall k :: k in body && k != "api_base_url" && k != "token_base_url" ==> r[k] == body[k]
    ensures r["api_base_url"] == JStr(settings.apiBaseUrl)
    ensures r["token_base_url"] == JStr(settings.tokenBaseUrl)
    ensures HasUsableApiKey(body) ==> "api_key" in r && r["api_key"] == body["api_key"] && HasUsableApiKey(r)
    ensures BasesMatch(r, settings.apiBaseUrl, settings.tokenBaseUrl)
  {
    body["api_base_url" := JStr(settings.apiBaseUrl)]["token_base_url" := JStr(settings.tokenBaseUrl)]
  }

  /** What `fetch_trial_key` makes of the token service's answer: it fails
      on a transport error, an error status, a body that is not an object,
      or one without a usable `api_key`; otherwise it returns the body
      stamped with the current base URLs. */
  function FetchTrialKey(settings: Settings, mint: Exchange): (r: Result<Object, CredentialError>)
    ensures mint.TransportFailure? ==> r == Failure(MintTransportFailed)
    ensures mint.Received? && IsError(mint.response.status) ==>
      r == Failure(MintRejected(mint.response.status, MintPayload(mint.response)))
    ensures mint.Received? && !IsError(mint.response.status) && !MintPayload(mint.response).JObj? ==>
      r == Failure(MintNotObject)
    ensures
      && mint.Received? && !IsError(mint.response.status) && MintPayload(mint.response).JObj?
      && !HasUsableApiKey(MintPayload(mint.response).fields)
      ==> r == Failure(MintMissingApiKey)
    ensures r.Success? <==>
      && mint.Received?
      && !IsError(mint.response.status)
      && MintPayload(mint.response).JObj?
      && HasUsableApiKey(MintPayload(mint.response).fields)
    ensures r.Success? ==> r.value == Stamped(MintPayload(mint.response).fields, settings)
  {
    match mint
    case TransportFailure => Failure(MintTransportFailed)
    case Received(response) =>
      var payload := MintPayload(response);
      if IsError(response.status) then Failure(MintRejected(response.status, payload))
      else if !payload.JObj? then Failure(MintNotObject)
      else if !HasUsableApiKey(payload.fields) then Failure(MintMissingApiKey)
      else Success(Stamped(payload.fields, settings))
  }

  /** Where a resolved key came from. */
  datatype Source = Env | Cache | Trial

  function SourceName(source: Source): string
  {
    match source
    case Env => "env"
    case Cache => "cache"
    case Trial => "trial"
  }

  /** `ResolvedCredentials`. */
  datatype Resolved = Resolved(apiKey: string, source: Source, metadata: Object)

  /** `settings.api_key` is truthy: present and not the empty string. A
      blank key such as `" "` is truthy. */
  predicate HasStaticKey(settings: Settings)
  {
    settings.apiKey.Some? && settings.apiKey.value != ""
  }

  /** The cached record may be used: it is present and non-empty, has a
      usable key, has not expired and was issued for the same base URLs. */
  predicate CacheUsable(cached: Option<Object>, settings: Settings, now: Instant, fromIso: IsoParser)
  {
    && cached.Some?
    && Truthy(JObj(cached.value))
    && HasUsableApiKey(cached.value)
    && !IsExpired(cached.value, now, fromIso)
    && BasesMatch(cached.value, settings.apiBaseUrl, settings.tokenBaseUrl)
  }

  function EnvMetadata(settings: Settings): Object
  {
    map["source" := JStr("env"), "api_base_url" := JStr(settings.apiBaseUrl), "token_base_url" := JStr(settings.tokenBaseUrl)]
  }

  /** `{**record, "source": name}`. */
  function Tagged(record: Object, source: Source): Object
  {
    record["source" := JStr(SourceName(source))]
  }

  /** One resolution: its result, whether the token service was asked for
      a key, and the record written to the cache, if any. */
  datatype Outcome = Outcome(result: Result<Resolved, CredentialError>, minted: bool, saved: Option<Object>)

  /** Resolution gets as far as asking the token service for a key: there
      is no static key, the cache file was read, its record is not usable
      and trials are allowed. */
  predicate ReachesMint(settings: Settings, loaded: Result<Option<Object>, LoadError>, now: Instant, fromIso: IsoParser)
  {
    && !HasStaticKey(settings)
    && loaded.Success?
    && !CacheUsable(loaded.value, settings, now, fromIso)
    && !settings.noTrial
  }

  /** `resolve_credentials`, given what loading the cache file gave: static
      key first, then the loading error if any, then a usable cached
      record, then failure when trials are off, then a freshly minted trial
      key that is written to the cache. */
  function Resolve(settings: Settings, loaded: Result<Option<Object>, LoadError>, now: Instant, fromIso: IsoParser, mint: Exchange): (o: Outcome)
    ensures HasStaticKey(settings) ==>
      o == Outcome(Success(Resolved(settings.apiKey.value, Env, EnvMetadata(settings))), false, None)
    ensures !HasStaticKey(settings) && loaded.Failure? ==> o == Outcome(Failure(CacheNotUtf8), false, None)
    ensures !HasStaticKey(settings) ==>
      ((o.result.Success? && o.result.value.source == Cache) <==>
        loaded.Success? && CacheUsable(loaded.value, settings, now, fromIso))
    ensures o.result.Success? && o.result.value.source == Cache ==>
      && !o.minted && o.saved == None
      && loaded.Success? && loaded.value.Some? && "api_key" in loaded.value.value
      && JStr(o.result.value.apiKey) == loaded.value.value["api_key"]
      && o.result.value.metadata == Tagged(loaded.value.value, Cache)
    ensures o.minted <==> ReachesMint(settings, loaded, now, fromIso)
    ensures o.result == Failure(TrialDisabled) <==>
      !HasStaticKey(settings) && loaded.Success? && !CacheUsable(loaded.value, settings, now, fromIso) && settings.noTrial
    ensures ReachesMint(settings, loaded, now, fromIso) ==>
      var fetched := FetchTrialKey(settings, mint);
      && (fetched.Failure? ==> o == Outcome(Failure(fetched.error), true, None))
      && (fetched.Success? ==>
            o == Outcome(Success(Resolved(fetched.value["api_key"].s, Trial, Tagged(fetched.value, Trial))), true, Some(fetched.value)))
    ensures o.saved.Some? <==> o.result.Success? && o.result.value.source == Trial
    ensures o.saved.Some? ==>
      && HasUsableApiKey(o.saved.value)
      && o.result.Success?
      && JStr(o.result.value.apiKey) == o.saved.value["api_key"]
      && BasesMatch(o.saved.value, settings.apiBaseUrl, settings.tokenBaseUrl)
    ensures o.result.Success? && o.result.value.source != Env ==> Strip(o.result.value.apiKey) != ""
    ensures o.result.Success? ==>
      "source" in o.result.value.metadata && o.result.value.metadata["source"] == JStr(SourceName(o.result.value.source))
  {
    if HasStaticKey(settings) then
      Outcome(Success(Resolved(settings.apiKey.value, Env, EnvMetadata(settings))), false, None)
    else if loaded.Failure? then
      Outcome(Failure(CacheNotUtf8), false, None)
    else if CacheUsable(loaded.value, settings, now, fromIso) then
      var record := loaded.value.value;
      Outcome(Success(Resolved(record["api_key"].s, Cache, Tagged(record, Cache))), false, None)
    else if settings.noTrial then
      Outcome(Failure(TrialDisabled), false, None)
    else match FetchTrialKey(settings, mint)
      case Failure(e) => Outcome(Failure(e), true, None)
      case Success(record) => Outcome(Success(Resolved(record["api_key"].s, Trial, Tagged(record, Trial))), true, Some(record))
  }

  /** `resolve_credentials` on the store, one resolution at a time. */
  method ResolveCredentials(store: CredentialStore, settings: Settings, now: Instant, fromIso: IsoParser, mint: Exchange)
    returns (result: Result<Resolved, CredentialError>, minted: bool)
    modifies store
    ensures var o := Resolve(settings, LoadFrom(old(store.files), settings.credentialsPath), now, fromIso, mint);
      && result == o.result
      && minted == o.minted
      && store.files == (if o.saved.Some? then SavedFiles(old(store.files), settings.credentialsPath, o.saved.value) else old(store.files))
  {
    minted := false;
    if HasStaticKey(settings) {
      result := Success(Resolved(settings.apiKey.value, Env, EnvMetadata(settings)));
      return;
    }
    var loaded := store.Load(settings.credentialsPath);
    if loaded.Failure? {
      result := Failure(CacheNotUtf8);
      return;
    }
    var cached := loaded.value;
    if cached.Some? && Truthy(JObj(cached.value)) && HasUsableApiKey(cached.value) {
      if !IsExpired(cached.value, now, fromIso) && BasesMatch(cached.value, settings.apiBaseUrl, settings.tokenBaseUrl) {
        result := Success(Resolved(cached.value["api_key"].s, Cache, Tagged(cached.value, Cache)));
        return;
      }
    }
    if settings.noTrial {
      result := Failure(TrialDisabled);
      return;
    }
    minted := true;
    var fetched := FetchTrialKey(settings, mint);
    if fetched.Failure? {
      result := Failure(fetched.error);
      return;
    }
    store.Save(settings.credentialsPath, fetched.value);
    result := Success(Resolved(fetched.value["api_key"].s, Trial, Tagged(fetched.value, Trial)));
  }

  /** A minted key is reused: after a resolution that minted and cached a
      record, the next resolution with the same settings, at a time the
      record has not expired, returns that key from the cache and mints
      nothing, whatever the token service would answer. */
  lemma MintedKeyIsReused(
    files: map<Path, StoredFile>, settings: Settings, now: Instant, later: Instant,
    fromIso: IsoParser, mint: Exchange, nextMint: Exchange)
    requires Resolve(settings, LoadFrom(files, settings.credentialsPath), now, fromIso, mint).saved.Some?
    requires !IsExpired(Resolve(settings, LoadFrom(files, settings.credentialsPath), now, fromIso, mint).saved.value, later, fromIso)
    ensures
      var first := Resolve(settings, LoadFrom(files, settings.credentialsPath), now, fromIso, mint);
      var after := SavedFiles(files, settings.credentialsPath, first.saved.value);
      var second := Resolve(settings, LoadFrom(after, settings.credentialsPath), later, fromIso, nextMint);
      && second.result.Success?
      && second.result.value.source == Cache
      && second.result.value.apiKey == first.result.value.apiKey
      && !second.minted
      && second.saved == None
  {
    var first := Resolve(settings, LoadFrom(files, settings.credentialsPath), now, fromIso, mint);
    var record := first.saved.value;
    var after := SavedFiles(files, settings.credentialsPath, record);
    assert LoadFrom(after, settings.credentialsPath) == Success(Some(record));
    assert "api_key" in record;
    assert Truthy(JObj(record));
    assert CacheUsable(Some(record), settings, later, fromIso);
  }
}
