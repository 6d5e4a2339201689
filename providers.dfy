/**
 * The Kodus API client of src/lib/providers.ts: where the review is posted, with which
 * token, what the request body holds, and how the answer is classified.
 *
 * The HTTP exchange is a parameter (`fetch`), as are JSON parsing (`parse`) and WHATWG
 * URL resolution (`resolveUrl`, which fails where `new URL` throws); everything around
 * them is modelled.
 */
module Providers {
  import opened Wrappers
  import opened Strings
  import Config
  import Context
  import Git

  /** A parsed JSON value. */
  datatype Json =
    | JNull
    | JBool(b: bool)
    | JNumber(n: int)
    | JString(s: string)
    | JArray(items: seq<Json>)
    | JObject(fields: map<string, Json>)

  /** `SendReviewResult`. */
  datatype SendReviewResult = SendReviewResult(
    ok: bool,
    status: int,
    requestId: Option<string>,
    data: Option<Json>,
    message: Option<string>)

  datatype Stats = Stats(
    changedFiles: nat,
    contextFiles: nat,
    followDepth: int,
    maxFiles: int,
    skipped: seq<string>)

  /** `ReviewPayload`; `providerResponse` is `None` until a send is attempted. */
  datatype ReviewPayload = ReviewPayload(
    provider: Config.Provider,
    generatedAt: string,
    baseRef: string,
    branch: Option<string>,
    headSha: Option<string>,
    diff: string,
    changedFiles: seq<Git.FileChange>,
    contextFiles: seq<Context.ContextFile>,
    prompt: string,
    stats: Stats,
    providerResponse: Option<SendReviewResult>)

  datatype Meta = Meta(generatedAt: string, baseRef: string, branch: Option<string>, headSha: Option<string>, stats: Stats)

  /** The JSON body posted to the API; `preferences` is `None` when the key is left out. */
  datatype RequestBody = RequestBody(
    provider: Config.Provider,
    diff: string,
    meta: Meta,
    preferences: Option<Config.ProviderConfig>)

  datatype HttpRequest = HttpRequest(endpoint: string, authorization: string, body: RequestBody)

  /** What `fetch` gives back: the status, whether it is 2xx, the `x-request-id` header and the body text. */
  datatype HttpResponse = HttpResponse(status: int, ok: bool, requestId: Option<string>, raw: string)

  const DefaultBaseUrl: string := "https://api.kodus.dev/v1/"
  const DefaultReviewPath: string := "review"
  const MissingTokenError: string :=
    "Configure KODUS_API_TOKEN (ou api.token em kodus.config.*) para habilitar o envio automatico."
  const EmptyBodyText: string := "<sem corpo>"

  // ---------------------------------------------------------------------------
  // The endpoint

  /** `ensureTrailingSlash`: the value, with one '/' appended when it does not already end in one. */
  function EnsureTrailingSlash(value: string): (r: string)
    ensures EndsWith(r, "/")
    ensures StartsWith(r, value) && |r| <= |value| + 1
  {
    if EndsWith(value, "/") then value else value + "/"
  }

  lemma EnsureTrailingSlashIdempotent(value: string)
    ensures EnsureTrailingSlash(EnsureTrailingSlash(value)) == EnsureTrailingSlash(value)
  {
  }

  /** A value that already ends in '/' is left as it is. */
  lemma EnsureTrailingSlashKeepsSlashed(value: string)
    requires EndsWith(value, "/")
    ensures EnsureTrailingSlash(value) == value
  {
  }

  /** `/^https?:\/\//i`: the path starts with "http://" or "https://", in any case. */
  predicate IsAbsoluteUrl(s: string) {
    StartsWith(Lower(s), "http://") || StartsWith(Lower(s), "https://")
  }

  /** `reviewPath.replace(/^\//, '')`: at most one leading '/' is removed. */
  function StripLeadingSlash(s: string): (r: string)
    ensures s == [] || s[0] != '/' ==> r == s
    ensures |s| > 0 && s[0] == '/' ==> r == s[1..]
  {
    if |s| > 0 && s[0] == '/' then s[1..] else s
  }

  /** Only one slash goes: a path starting with several keeps all but the first. */
  lemma StripLeadingSlashOnce(s: string)
    requires |s| >= 2 && s[0] == '/' && s[1] == '/'
    ensures |StripLeadingSlash(s)| > 0 && StripLeadingSlash(s)[0] == '/'
  {
  }

  /**
   * `buildEndpoint`: an absolute review URL is used as it is; any other path is resolved,
   * without its leading slash, against the base URL with a trailing slash, and that
   * resolution fails (`new URL` throws) when the base is not a valid URL.
   */
  function BuildEndpoint(
    baseUrl: string, reviewPath: string, resolveUrl: (string, string) -> Result<string>): (endpoint: Result<string>)
    ensures IsAbsoluteUrl(reviewPath) ==> endpoint == Ok(reviewPath)
    ensures !IsAbsoluteUrl(reviewPath) ==> endpoint == resolveUrl(StripLeadingSlash(reviewPath), EnsureTrailingSlash(baseUrl))
  {
    if IsAbsoluteUrl(reviewPath) then Ok(reviewPath)
    else resolveUrl(StripLeadingSlash(reviewPath), EnsureTrailingSlash(baseUrl))
  }

  /** `config.api`, with every field undefined when the section is missing. */
  function Api(config: Config.KodusConfig): Config.ApiConfig {
    config.api.GetOr(Config.ApiConfig(None, None, None))
  }

  /** `api.baseUrl ?? KODUS_API_URL ?? "https://api.kodus.dev/v1/"`. */
  function BaseUrlFor(config: Config.KodusConfig, env: Config.Environment): string {
    Api(config).baseUrl.OrElse(Config.EnvVar(env, "KODUS_API_URL")).GetOr(DefaultBaseUrl)
  }

  /** `api.reviewPath ?? "review"`. */
  function ReviewPathFor(config: Config.KodusConfig): string {
    Api(config).reviewPath.GetOr(DefaultReviewPath)
  }

  const TokenVars: seq<string> := ["KODUS_API_TOKEN", "KODUS_TOKEN"]

  /** `api.token ?? KODUS_API_TOKEN ?? KODUS_TOKEN`: the first one defined, even when empty. */
  function TokenFor(config: Config.KodusConfig, env: Config.Environment): (token: Option<string>)
    ensures Api(config).token.Some? ==> token == Api(config).token
    ensures Api(config).token.None? ==> token == Config.FirstDefined(env, TokenVars)
  {
    Api(config).token.OrElse(Config.FirstDefined(env, TokenVars))
  }

  // ---------------------------------------------------------------------------
  // The request

  /** The entry holds at least one key. */
  predicate HasEntries(c: Config.ProviderConfig) {
    c.apiKey.Some? || c.model.Some? || c.baseUrl.Some? || c.organization.Some?
  }

  /**
   * `normalizePreferences`: the provider's settings without their undefined entries;
   * absent when there is no entry for the provider or every entry is undefined.
   */
  function NormalizePreferences(source: Option<Config.ProviderConfig>): (r: Option<Config.ProviderConfig>)
    ensures r.Some? <==> source.Some? && HasEntries(source.value)
    ensures r.Some? ==> r == source
  {
    if source.Some? && source.value != Config.NoProviderConfig then source else None
  }

  /** `config.providers?.[provider]`. */
  function ProviderSettings(config: Config.KodusConfig, provider: Config.Provider): Option<Config.ProviderConfig> {
    if config.providers.None? then None
    else if provider == Config.Claude then config.providers.value.claude
    else config.providers.value.codex
  }

  /**
   * The body `buildRequestBody` produces: provider, diff and metadata, never the prompt or
   * the context files; `preferences` only when there is at least one entry.
   */
  function RequestBodyFor(payload: ReviewPayload, preferences: Option<Config.ProviderConfig>): (body: RequestBody)
    ensures body.provider == payload.provider && body.diff == payload.diff
    ensures body.meta == Meta(payload.generatedAt, payload.baseRef, payload.branch, payload.headSha, payload.stats)
    ensures body.preferences.Some? <==> preferences.Some? && HasEntries(preferences.value)
    ensures body.preferences.Some? ==> body.preferences == preferences
  {
    var meta := Meta(payload.generatedAt, payload.baseRef, payload.branch, payload.headSha, payload.stats);
    var keep := preferences.Some? && HasEntries(preferences.value);
    RequestBody(payload.provider, payload.diff, meta, if keep then preferences else None)
  }

  /** `buildRequestBody`: the fixed keys first, then `preferences` when it has entries. */
  method BuildRequestBody(payload: ReviewPayload, preferences: Option<Config.ProviderConfig>) returns (body: RequestBody)
    ensures body == RequestBodyFor(payload, preferences)
  {
    var meta := Meta(payload.generatedAt, payload.baseRef, payload.branch, payload.headSha, payload.stats);
    body := RequestBody(payload.provider, payload.diff, meta, None);
    if preferences.Some? && HasEntries(preferences.value) {
      body := body.(preferences := preferences);
    }
  }

  /** Normalised preferences reach the body unchanged. */
  lemma NormalizedPreferencesAreSent(payload: ReviewPayload, source: Option<Config.ProviderConfig>)
    ensures RequestBodyFor(payload, NormalizePreferences(source)).preferences == NormalizePreferences(source)
  {
  }

  // ---------------------------------------------------------------------------
  // The response

  const MessageFields: seq<string> := ["review", "result", "message", "summary", "content"]

  /**
   * A field holds a string with something other than whitespace, which is what
   * `value.trim().length > 0` tests (see `ExtractedMessageIsNotBlank`).
   */
  predicate IsMessage(fields: map<string, Json>, name: string) {
    name in fields && fields[name].JString? && !AllWhitespace(fields[name].s)
  }

  /**
   * Position of the first message field, searching from position `k` of `MessageFields`;
   * `|MessageFields|` when none holds a message.
   */
  function FirstMessageFrom(fields: map<string, Json>, k: nat): (j: nat)
    requires k <= |MessageFields|
    ensures k <= j <= |MessageFields|
    ensures j < |MessageFields| ==> IsMessage(fields, MessageFields[j])
    ensures forall i :: k <= i < j ==> !IsMessage(fields, MessageFields[i])
    decreases |MessageFields| - k
  {
    if k == |MessageFields| || IsMessage(fields, MessageFields[k]) then k
    else FirstMessageFrom(fields, k + 1)
  }

  /**
   * `extractMessage`: the first of review, result, message, summary and content that holds
   * a non-blank string; nothing for a value that is not an object.
   */
  function ExtractMessage(payload: Json): (message: Option<string>)
    ensures !payload.JObject? ==> message.None?
    ensures payload.JObject? ==>
      var k := FirstMessageFrom(payload.fields, 0);
      (message.Some? <==> k < |MessageFields|)
      && (message.Some? ==> message.value == payload.fields[MessageFields[k]].s)
  {
    if !payload.JObject? then None
    else
      var k := FirstMessageFrom(payload.fields, 0);
      if k < |MessageFields| then Some(payload.fields[MessageFields[k]].s) else None
  }

  /** A message is never blank. */
  lemma ExtractedMessageIsNotBlank(payload: Json)
    ensures ExtractMessage(payload).Some? ==> |Trim(ExtractMessage(payload).value)| > 0
  {
    if ExtractMessage(payload).Some? {
      TrimEmptyIffBlank(ExtractMessage(payload).value);
    }
  }

  /** A non-blank `review` field wins over every other field. */
  lemma ReviewFieldFirst(fields: map<string, Json>)
    requires IsMessage(fields, "review")
    ensures ExtractMessage(JObject(fields)) == Some(fields["review"].s)
  {
    assert MessageFields[0] == "review";
  }

  /** A blank or non-string `review` field is skipped in favour of a non-blank `result`. */
  lemma BlankReviewFieldSkipped(fields: map<string, Json>)
    requires !IsMessage(fields, "review") && IsMessage(fields, "result")
    ensures ExtractMessage(JObject(fields)) == Some(fields["result"].s)
  {
    assert MessageFields[0] == "review" && MessageFields[1] == "result";
    assert MessageFields[1..][0] == "result";
  }

  /** "Kodus API respondeu <status>: <body or '<sem corpo>'>". */
  function StatusError(status: int, raw: string): string {
    "Kodus API respondeu " + IntToDecimal(status) + ": " + (if raw == "" then EmptyBodyText else raw)
  }

  /** The endpoint `sendReview` computes from the configuration and the environment. */
  function EndpointFor(
    config: Config.KodusConfig, env: Config.Environment, resolveUrl: (string, string) -> Result<string>): Result<string>
  {
    BuildEndpoint(BaseUrlFor(config, env), ReviewPathFor(config), resolveUrl)
  }

  /** The request `sendReview` posts: the endpoint, the bearer token and the body. */
  function RequestFor(payload: ReviewPayload, config: Config.KodusConfig, endpoint: string, token: string): HttpRequest
  {
    var preferences := NormalizePreferences(ProviderSettings(config, payload.provider));
    HttpRequest(endpoint, "Bearer " + token, RequestBodyFor(payload, preferences))
  }

  /**
   * How `sendReview` reads the answer to its request: a failed exchange or a non-2xx
   * status is an error; a 2xx answer is classified by its body: empty (no data, no
   * message), not JSON (the text is both), or JSON (the data, and the message found in it).
   */
  function ClassifyResponse(response: Result<HttpResponse>, parse: string -> Option<Json>): (r: Result<SendReviewResult>)
    ensures response.Err? ==> r == Err(response.message)
    ensures response.Ok? && !response.value.ok ==> r == Err(StatusError(response.value.status, response.value.raw))
    ensures response.Ok? && response.value.ok ==>
      var raw := response.value.raw;
      && r.Ok?
      && r.value.ok
      && r.value.status == response.value.status
      && r.value.requestId == response.value.requestId
      && (raw == "" ==> r.value.data.None? && r.value.message.None?)
      && (raw != "" && parse(raw).None? ==> r.value.data == Some(JString(raw)) && r.value.message == Some(raw))
      && (raw != "" && parse(raw).Some? ==>
            r.value.data == parse(raw) && r.value.message == ExtractMessage(parse(raw).value))
    ensures r.Ok? <==> response.Ok? && response.value.ok
  {
    if response.Err? then Err(response.message)
    else if !response.value.ok then Err(StatusError(response.value.status, response.value.raw))
    else
      var raw := response.value.raw;
      var data := if raw == "" then None else if parse(raw).Some? then parse(raw) else Some(JString(raw));
      var message := if raw == "" then None else if parse(raw).Some? then ExtractMessage(parse(raw).value) else Some(raw);
      Ok(SendReviewResult(true, response.value.status, response.value.requestId, data, message))
  }

  /**
   * What `sendReview` yields: an endpoint that cannot be built fails first, whatever the
   * token; then, without a token, it fails before any request; otherwise the request is
   * made and its answer classified.
   */
  function SendOutcome(
    config: Config.KodusConfig, env: Config.Environment, payload: ReviewPayload,
    resolveUrl: (string, string) -> Result<string>,
    fetch: HttpRequest -> Result<HttpResponse>,
    parse: string -> Option<Json>): (r: Result<SendReviewResult>)
    ensures EndpointFor(config, env, resolveUrl).Err? ==> r == Err(EndpointFor(config, env, resolveUrl).message)
    ensures EndpointFor(config, env, resolveUrl).Ok? && !Config.IsSet(TokenFor(config, env)) ==> r == Err(MissingTokenError)
    ensures EndpointFor(config, env, resolveUrl).Ok? && Config.IsSet(TokenFor(config, env)) ==>
      r == ClassifyResponse(fetch(RequestFor(payload, config, EndpointFor(config, env, resolveUrl).value, TokenFor(config, env).value)), parse)
  {
    var endpoint := EndpointFor(config, env, resolveUrl);
    var token := TokenFor(config, env);
    if endpoint.Err? then Err(endpoint.message)
    else if !Config.IsSet(token) then Err(MissingTokenError)
    else ClassifyResponse(fetch(RequestFor(payload, config, endpoint.value, token.value)), parse)
  }

  /**
   * A successful send always carries a 2xx answer that was actually requested, at the
   * endpoint built from the configuration, with a token.
   */
  lemma SendSucceedsOnlyWithToken(
    config: Config.KodusConfig, env: Config.Environment, payload: ReviewPayload,
    resolveUrl: (string, string) -> Result<string>,
    fetch: HttpRequest -> Result<HttpResponse>,
    parse: string -> Option<Json>)
    ensures SendOutcome(config, env, payload, resolveUrl, fetch, parse).Ok? ==>
      && EndpointFor(config, env, resolveUrl).Ok?
      && Config.IsSet(TokenFor(config, env))
      && var response := fetch(RequestFor(payload, config, EndpointFor(config, env, resolveUrl).value, TokenFor(config, env).value));
         response.Ok? && response.value.ok
  {
  }

  /** `sendReview`, step by step: the endpoint, the token check, the body, the exchange, the classification. */
  method SendReview(
    config: Config.KodusConfig, env: Config.Environment, payload: ReviewPayload,
    resolveUrl: (string, string) -> Result<string>,
    fetch: HttpRequest -> Result<HttpResponse>,
    parse: string -> Option<Json>)
    returns (r: Result<SendReviewResult>)
    ensures r == SendOutcome(config, env, payload, resolveUrl, fetch, parse)
  {
    var baseUrl := BaseUrlFor(config, env);
    var reviewPath := ReviewPathFor(config);
    var endpoint := BuildEndpoint(baseUrl, reviewPath, resolveUrl);
    if endpoint.Err? {
      return Err(endpoint.message);
    }

    var token := TokenFor(config, env);
    if !Config.IsSet(token) {
      return Err(MissingTokenError);
    }

    var rawPreferences := ProviderSettings(config, payload.provider);
    var preferences := NormalizePreferences(rawPreferences);
    var requestBody := BuildRequestBody(payload, preferences);

    var response := fetch(HttpRequest(endpoint.value, "Bearer " + token.value, requestBody));
    if response.Err? {
      return Err(response.message);
    }
    var requestId := response.value.requestId;
    var raw := response.value.raw;
    if !response.value.ok {
      return Err(StatusError(response.value.status, raw));
    }

    var data: Option<Json> := None;
    var message: Option<string> := None;
    if raw != "" {
      var parsed := parse(raw);
      if parsed.Some? {
        data := parsed;
        message := ExtractMessage(parsed.value);
      } else {
        data := Some(JString(raw));
        message := Some(raw);
      }
    }
    return Ok(SendReviewResult(true, response.value.status, requestId, data, message));
  }

  /** A refused request names its status and never has an empty explanation. */
  lemma StatusErrorShowsStatus(status: int, raw: string)
    ensures var e := StatusError(status, raw);
      && StartsWith(e, "Kodus API respondeu " + IntToDecimal(status) + ": ")
      && EndsWith(e, if raw == "" then EmptyBodyText else raw)
  {
    var prefix := "Kodus API respondeu " + IntToDecimal(status) + ": ";
    var tail := if raw == "" then EmptyBodyText else raw;
    assert StatusError(status, raw) == prefix + tail;
  }
}
