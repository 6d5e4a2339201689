/**
 * The configuration layering of src/lib/config.ts: review defaults and provider
 * settings come from the first configuration source present, and the `KODUS_*`
 * environment variables override them field by field.
 *
 * The environment is a map from variable names to values. Reading and parsing the
 * configuration files (JSON, YAML, package.json) is not part of the model: each
 * source's outcome is given, as "absent", a parsed configuration, or an error.
 */
module Config {
  import opened Wrappers
  import opened Strings

  /** The two review providers, `'claude' | 'codex'`. */
  datatype Provider = Claude | Codex

  function ProviderName(p: Provider): (name: string)
    ensures name == "claude" || name == "codex"
  {
    match p
    case Claude => "claude"
    case Codex => "codex"
  }

  /** The provider a lower-case name denotes, if any. */
  function ProviderNamed(name: string): (r: Option<Provider>)
    ensures r.Some? <==> name == "claude" || name == "codex"
    ensures r.Some? ==> ProviderName(r.value) == name
  {
    if name == "claude" then Some(Claude)
    else if name == "codex" then Some(Codex)
    else None
  }

  lemma ProviderNameRoundTrip(p: Provider)
    ensures ProviderNamed(ProviderName(p)) == Some(p)
  {
  }

  /** `ReviewDefaultsConfig`; also the shape of `ResolvedReviewOptions`. */
  datatype ReviewDefaults = ReviewDefaults(
    base: Option<string>,
    provider: Option<Provider>,
    maxFiles: Option<int>,
    followDepth: Option<int>,
    send: Option<bool>)

  const NoReviewDefaults := ReviewDefaults(None, None, None, None, None)

  /** `ProviderConfig`, with the `organization` field the codex entry may carry. */
  datatype ProviderConfig = ProviderConfig(
    apiKey: Option<string>,
    model: Option<string>,
    baseUrl: Option<string>,
    organization: Option<string>)

  const NoProviderConfig := ProviderConfig(None, None, None, None)

  datatype ProvidersConfig = ProvidersConfig(claude: Option<ProviderConfig>, codex: Option<ProviderConfig>)

  /** The `api` section read by the provider client. */
  datatype ApiConfig = ApiConfig(baseUrl: Option<string>, reviewPath: Option<string>, token: Option<string>)

  datatype KodusConfig = KodusConfig(
    review: Option<ReviewDefaults>,
    providers: Option<ProvidersConfig>,
    api: Option<ApiConfig>)

  const EmptyConfig := KodusConfig(None, None, None)

  // ---------------------------------------------------------------------------
  // The environment

  type Environment = map<string, string>

  /** `process.env[name]`. */
  function EnvVar(env: Environment, name: string): (r: Option<string>)
    ensures r.Some? <==> name in env
    ensures r.Some? ==> r.value == env[name]
  {
    if name in env then Some(env[name]) else None
  }

  /** A variable is truthy when it is defined and not empty. */
  predicate IsSet(v: Option<string>) {
    v.Some? && v.value != ""
  }

  /** `if (value) field = value`: the value when it is truthy. */
  function WhenSet(v: Option<string>): (r: Option<string>)
    ensures r.Some? <==> IsSet(v)
    ensures r.Some? ==> r == v
  {
    if IsSet(v) then v else None
  }

  /** `KODUS_REVIEW_PROVIDER`, lower-cased; a value naming no provider is ignored. */
  function EnvProvider(v: Option<string>): (r: Option<Provider>)
    ensures r.Some? <==> IsSet(v) && ProviderNamed(Lower(v.value)).Some?
    ensures r.Some? ==> ProviderName(r.value) == Lower(v.value)
  {
    if IsSet(v) then ProviderNamed(Lower(v.value)) else None
  }

  /** A count variable: kept when `parseInt` gives a number of at least `min`, ignored otherwise. */
  function EnvCount(v: Option<string>, min: int): (r: Option<int>)
    ensures r.Some? <==> IsSet(v) && ParseInt(v.value).Some? && ParseInt(v.value).value >= min
    ensures r.Some? ==> r == ParseInt(v.value)
  {
    if IsSet(v) then
      var n := ParseInt(v.value);
      if n.Some? && n.value >= min then n else None
    else None
  }

  /** `KODUS_REVIEW_SEND`, trimmed and lower-cased: "true"/"1" and "false"/"0"; anything else is ignored. */
  function EnvSend(v: Option<string>): (r: Option<bool>)
    ensures r == Some(true) <==> IsSet(v) && Lower(Trim(v.value)) in {"true", "1"}
    ensures r == Some(false) <==> IsSet(v) && Lower(Trim(v.value)) in {"false", "0"}
  {
    if IsSet(v) then
      var value := Lower(Trim(v.value));
      if value == "true" || value == "1" then Some(true)
      else if value == "false" || value == "0" then Some(false)
      else None
    else None
  }

  const ReviewBaseVar := "KODUS_REVIEW_BASE"
  const ReviewProviderVar := "KODUS_REVIEW_PROVIDER"
  const ReviewMaxFilesVar := "KODUS_REVIEW_MAX_FILES"
  const ReviewFollowDepthVar := "KODUS_REVIEW_FOLLOW_DEPTH"
  const ReviewSendVar := "KODUS_REVIEW_SEND"

  /** The review defaults the environment sets; a field the environment does not set is `None`. */
  function ReviewEnv(env: Environment): ReviewDefaults {
    ReviewDefaults(
      WhenSet(EnvVar(env, ReviewBaseVar)),
      EnvProvider(EnvVar(env, ReviewProviderVar)),
      EnvCount(EnvVar(env, ReviewMaxFilesVar), 1),
      EnvCount(EnvVar(env, ReviewFollowDepthVar), 0),
      EnvSend(EnvVar(env, ReviewSendVar)))
  }

  /** `extractReviewEnv`: the review record, filled in one variable at a time. */
  method ExtractReviewEnv(env: Environment) returns (review: ReviewDefaults)
    ensures review == ReviewEnv(env)
  {
    review := NoReviewDefaults;
    var base := EnvVar(env, ReviewBaseVar);
    if IsSet(base) {
      review := review.(base := base);
    }
    assert review == NoReviewDefaults.(base := WhenSet(base));
    var provider := EnvVar(env, ReviewProviderVar);
    if IsSet(provider) {
      var name := Lower(provider.value);
      if name == "claude" || name == "codex" {
        review := review.(provider := ProviderNamed(name));
      }
    }
    assert review == NoReviewDefaults.(base := WhenSet(base), provider := EnvProvider(provider));
    var maxFiles := EnvVar(env, ReviewMaxFilesVar);
    if IsSet(maxFiles) {
      var asNumber := ParseInt(maxFiles.value);
      if asNumber.Some? && asNumber.value > 0 {
        review := review.(maxFiles := asNumber);
      }
    }
    assert review == NoReviewDefaults.(base := WhenSet(base), provider := EnvProvider(provider),
      maxFiles := EnvCount(maxFiles, 1));
    var followDepth := EnvVar(env, ReviewFollowDepthVar);
    if IsSet(followDepth) {
      var asNumber := ParseInt(followDepth.value);
      if asNumber.Some? && asNumber.value >= 0 {
        review := review.(followDepth := asNumber);
      }
    }
    assert review == ReviewEnv(env).(send := None);
    var send := EnvVar(env, ReviewSendVar);
    if IsSet(send) {
      var value := Lower(Trim(send.value));
      if value == "true" || value == "1" {
        review := review.(send := Some(true));
      } else if value == "false" || value == "0" {
        review := review.(send := Some(false));
      }
    }
  }

  /** A count written in decimal is taken as it is, when it reaches `min`. */
  lemma EnvCountOfDecimal(n: int, min: int)
    requires n >= min
    ensures EnvCount(Some(IntToDecimal(n)), min) == Some(n)
  {
    ParseIntOfDecimal(n);
  }

  /** Position of the first of `names` that is defined; `|names|` when none is. */
  function FirstDefinedIndex(env: Environment, names: seq<string>): (k: nat)
    ensures k <= |names|
    ensures k < |names| ==> names[k] in env
    ensures forall j :: 0 <= j < k ==> names[j] !in env
  {
    if names == [] then 0
    else if names[0] in env then 0
    else 1 + FirstDefinedIndex(env, names[1..])
  }

  /** `env[names[0]] ?? env[names[1]] ?? ...`: the first defined variable, even when empty. */
  function FirstDefined(env: Environment, names: seq<string>): (r: Option<string>)
    ensures r.None? <==> forall j :: 0 <= j < |names| ==> names[j] !in env
    ensures r.Some? ==> r.value == env[names[FirstDefinedIndex(env, names)]]
  {
    var k := FirstDefinedIndex(env, names);
    if k < |names| then Some(env[names[k]]) else None
  }

  /** An empty variable that is defined hides every later one: no key is configured. */
  lemma EmptyFirstKeyHidesLaterKeys(env: Environment, names: seq<string>)
    requires |names| > 0 && names[0] in env && env[names[0]] == ""
    ensures WhenSet(FirstDefined(env, names)) == None
  {
  }

  const ClaudeKeyVars: seq<string> := ["KODUS_CLAUDE_API_KEY", "ANTHROPIC_API_KEY", "CLAUDE_API_KEY"]
  const CodexKeyVars: seq<string> := ["KODUS_CODEX_API_KEY", "OPENAI_API_KEY", "CODEX_API_KEY"]
  const CodexOrgVars: seq<string> := ["KODUS_CODEX_ORG", "OPENAI_ORG"]

  /** An entry with at least one field is kept (`Object.keys(entry).length > 0`). */
  function Present(c: ProviderConfig): (r: Option<ProviderConfig>)
    ensures r.Some? <==> c.apiKey.Some? || c.model.Some? || c.baseUrl.Some? || c.organization.Some?
    ensures r.Some? ==> r.value == c
  {
    if c == NoProviderConfig then None else Some(c)
  }

  function ClaudeEnv(env: Environment): ProviderConfig {
    ProviderConfig(
      WhenSet(FirstDefined(env, ClaudeKeyVars)),
      WhenSet(EnvVar(env, "KODUS_CLAUDE_MODEL")),
      WhenSet(EnvVar(env, "KODUS_CLAUDE_BASE_URL")),
      None)
  }

  function CodexEnv(env: Environment): ProviderConfig {
    ProviderConfig(
      WhenSet(FirstDefined(env, CodexKeyVars)),
      WhenSet(EnvVar(env, "KODUS_CODEX_MODEL")),
      WhenSet(EnvVar(env, "KODUS_CODEX_BASE_URL")),
      WhenSet(FirstDefined(env, CodexOrgVars)))
  }

  /** The provider settings the environment sets; a provider with none set is absent. */
  function ProvidersEnv(env: Environment): ProvidersConfig {
    ProvidersConfig(Present(ClaudeEnv(env)), Present(CodexEnv(env)))
  }

  /** `extractProvidersEnv`: each provider's entry, filled in one variable at a time. */
  method ExtractProvidersEnv(env: Environment) returns (providers: ProvidersConfig)
    ensures providers == ProvidersEnv(env)
    ensures providers.claude.Some? ==> providers.claude.value.organization.None?
  {
    providers := ProvidersConfig(None, None);

    var claudeEnv := NoProviderConfig;
    var claudeApiKey := FirstDefined(env, ClaudeKeyVars);
    if IsSet(claudeApiKey) {
      claudeEnv := claudeEnv.(apiKey := claudeApiKey);
    }
    var claudeModel := EnvVar(env, "KODUS_CLAUDE_MODEL");
    if IsSet(claudeModel) {
      claudeEnv := claudeEnv.(model := claudeModel);
    }
    var claudeBaseUrl := EnvVar(env, "KODUS_CLAUDE_BASE_URL");
    if IsSet(claudeBaseUrl) {
      claudeEnv := claudeEnv.(baseUrl := claudeBaseUrl);
    }
    if claudeEnv != NoProviderConfig {
      providers := providers.(claude := Some(claudeEnv));
    }

    var codexEnv := NoProviderConfig;
    var codexApiKey := FirstDefined(env, CodexKeyVars);
    if IsSet(codexApiKey) {
      codexEnv := codexEnv.(apiKey := codexApiKey);
    }
    var codexModel := EnvVar(env, "KODUS_CODEX_MODEL");
    if IsSet(codexModel) {
      codexEnv := codexEnv.(model := codexModel);
    }
    var codexBaseUrl := EnvVar(env, "KODUS_CODEX_BASE_URL");
    if IsSet(codexBaseUrl) {
      codexEnv := codexEnv.(baseUrl := codexBaseUrl);
    }
    var organization := FirstDefined(env, CodexOrgVars);
    if IsSet(organization) {
      codexEnv := codexEnv.(organization := organization);
    }
    if codexEnv != NoProviderConfig {
      providers := providers.(codex := Some(codexEnv));
    }
  }

  // ---------------------------------------------------------------------------
  // Layering

  /** `{ ...file, ...env }` on review defaults: a field the environment sets wins. */
  function OverrideReview(file: ReviewDefaults, env: ReviewDefaults): ReviewDefaults {
    ReviewDefaults(
      env.base.OrElse(file.base),
      env.provider.OrElse(file.provider),
      env.maxFiles.OrElse(file.maxFiles),
      env.followDepth.OrElse(file.followDepth),
      env.send.OrElse(file.send))
  }

  /** Environment fields override file fields; file fields the environment leaves unset are kept. */
  lemma OverrideReviewFields(file: ReviewDefaults, env: ReviewDefaults)
    ensures var r := OverrideReview(file, env);
      && r.base == (if env.base.Some? then env.base else file.base)
      && r.provider == (if env.provider.Some? then env.provider else file.provider)
      && r.maxFiles == (if env.maxFiles.Some? then env.maxFiles else file.maxFiles)
      && r.followDepth == (if env.followDepth.Some? then env.followDepth else file.followDepth)
      && r.send == (if env.send.Some? then env.send else file.send)
  {
  }

  /** Applying the same overrides twice is applying them once. */
  lemma OverrideReviewIdempotent(file: ReviewDefaults, env: ReviewDefaults)
    ensures OverrideReview(OverrideReview(file, env), env) == OverrideReview(file, env)
  {
  }

  /** An environment that sets nothing changes nothing. */
  lemma OverrideReviewByNothing(file: ReviewDefaults)
    ensures OverrideReview(file, NoReviewDefaults) == file
  {
  }

  /** `{ ...file, ...env }` on one provider entry. */
  function OverrideProvider(file: ProviderConfig, env: ProviderConfig): ProviderConfig {
    ProviderConfig(
      env.apiKey.OrElse(file.apiKey),
      env.model.OrElse(file.model),
      env.baseUrl.OrElse(file.baseUrl),
      env.organization.OrElse(file.organization))
  }

  /**
   * `mergeProviderConfigs`: absent only when both sides are absent; otherwise both
   * entries exist, each the file entry overridden by the environment entry.
   */
  function MergeProviderConfigs(fromFile: Option<ProvidersConfig>, fromEnv: Option<ProvidersConfig>)
    : (r: Option<ProvidersConfig>)
    ensures r.None? <==> fromFile.None? && fromEnv.None?
    ensures r.Some? ==> r.value.claude.Some? && r.value.codex.Some?
  {
    if fromFile.None? && fromEnv.None? then None
    else
      var file := fromFile.GetOr(ProvidersConfig(None, None));
      var env := fromEnv.GetOr(ProvidersConfig(None, None));
      Some(ProvidersConfig(
        Some(OverrideProvider(file.claude.GetOr(NoProviderConfig), env.claude.GetOr(NoProviderConfig))),
        Some(OverrideProvider(file.codex.GetOr(NoProviderConfig), env.codex.GetOr(NoProviderConfig)))))
  }

  /** The entry for `provider` in a providers section, an absent section or entry read as an empty entry. */
  function EntryOf(p: Option<ProvidersConfig>, provider: Provider): ProviderConfig {
    if p.None? then NoProviderConfig
    else if provider == Claude then p.value.claude.GetOr(NoProviderConfig)
    else p.value.codex.GetOr(NoProviderConfig)
  }

  /** `r` is `env` laid over `file`: each field `env` sets wins, each field it leaves unset is `file`'s. */
  predicate Layered(file: ProviderConfig, env: ProviderConfig, r: ProviderConfig) {
    && r.apiKey == (if env.apiKey.Some? then env.apiKey else file.apiKey)
    && r.model == (if env.model.Some? then env.model else file.model)
    && r.baseUrl == (if env.baseUrl.Some? then env.baseUrl else file.baseUrl)
    && r.organization == (if env.organization.Some? then env.organization else file.organization)
  }

  /**
   * In a merged providers section, each provider's entry is its environment entry laid
   * over its file entry, field by field, for every field of both providers.
   */
  lemma MergeProviderKeys(fromFile: Option<ProvidersConfig>, fromEnv: Option<ProvidersConfig>, provider: Provider)
    ensures var m := MergeProviderConfigs(fromFile, fromEnv);
      m.Some? ==>
        && (if provider == Claude then m.value.claude.Some? else m.value.codex.Some?)
        && Layered(EntryOf(fromFile, provider), EntryOf(fromEnv, provider), EntryOf(m, provider))
  {
  }

  /** An environment that sets no provider field leaves every provider entry as the file has it. */
  lemma MergeProviderKeysByNothing(fromFile: Option<ProvidersConfig>, provider: Provider)
    ensures EntryOf(MergeProviderConfigs(fromFile, Some(ProvidersConfig(None, None))), provider) == EntryOf(fromFile, provider)
  {
  }

  /** Merging the same environment entries twice is merging them once. */
  lemma MergeProviderKeysIdempotent(fromFile: Option<ProvidersConfig>, fromEnv: Option<ProvidersConfig>)
    ensures MergeProviderConfigs(MergeProviderConfigs(fromFile, fromEnv), fromEnv) == MergeProviderConfigs(fromFile, fromEnv)
  {
  }

  /** `applyEnvironmentOverrides` once the environment has been read: the object spread. */
  function WithOverrides(config: KodusConfig, reviewEnv: ReviewDefaults, providersEnv: ProvidersConfig)
    : (r: KodusConfig)
    ensures r.review.Some? && r.providers.Some? && r.api == config.api
  {
    KodusConfig(
      Some(OverrideReview(config.review.GetOr(NoReviewDefaults), reviewEnv)),
      MergeProviderConfigs(config.providers, Some(providersEnv)),
      config.api)
  }

  /** `applyEnvironmentOverrides`: read the environment, then override the configuration with it. */
  method ApplyEnvironmentOverrides(config: KodusConfig, env: Environment) returns (r: KodusConfig)
    ensures r == WithOverrides(config, ReviewEnv(env), ProvidersEnv(env))
  {
    var reviewEnv := ExtractReviewEnv(env);
    var providersEnv := ExtractProvidersEnv(env);
    r := WithOverrides(config, reviewEnv, providersEnv);
  }

  /** `resolveReviewDefaults`: the five review fields, all unset when there is no review section. */
  function ResolveReviewDefaults(config: KodusConfig): (r: ReviewDefaults)
    ensures config.review.None? ==> r == NoReviewDefaults
    ensures config.review.Some? ==> r == config.review.value
  {
    config.review.GetOr(NoReviewDefaults)
  }

  // ---------------------------------------------------------------------------
  // Choosing the source

  /** The configuration files tried, in this order, before the `kodus` key of package.json. */
  const ConfigFileNames: seq<string> := ["kodus.config.json", "kodus.config.yaml", "kodus.config.yml"]

  /**
   * What reading one source gives: `Ok(None)` when it is absent (or, for YAML, not an
   * object), `Ok(Some(c))` for a configuration, `Err` for any other failure.
   */
  type SourceOutcome = Result<Option<KodusConfig>>

  /** Position of the first outcome that decides the load: a configuration or an error. */
  function FirstDecisive(outcomes: seq<SourceOutcome>): (k: nat)
    ensures k <= |outcomes|
    ensures k < |outcomes| ==> outcomes[k] != Ok(None)
    ensures forall j :: 0 <= j < k ==> outcomes[j] == Ok(None)
  {
    if outcomes == [] then 0
    else if outcomes[0] != Ok(None) then 0
    else 1 + FirstDecisive(outcomes[1..])
  }

  /** The outcomes of the four sources, in the order they are tried. */
  function Outcomes(readConfigFile: string -> SourceOutcome, packageConfig: SourceOutcome): (r: seq<SourceOutcome>)
    ensures |r| == 4 && r[3] == packageConfig
    ensures forall i :: 0 <= i < 3 ==> r[i] == readConfigFile(ConfigFileNames[i])
  {
    [readConfigFile(ConfigFileNames[0]), readConfigFile(ConfigFileNames[1]), readConfigFile(ConfigFileNames[2]),
     packageConfig]
  }

  /**
   * `loadConfig`: the first source present, in the order json, yaml, yml, package.json,
   * else the empty configuration; the environment overrides whichever is chosen. A read
   * failure other than absence ends the load with that error.
   */
  method LoadConfig(env: Environment, readConfigFile: string -> SourceOutcome, packageConfig: SourceOutcome)
    returns (r: Result<KodusConfig>)
    ensures var outcomes := Outcomes(readConfigFile, packageConfig);
      var k := FirstDecisive(outcomes);
      && (k == |outcomes| ==> r == Ok(WithOverrides(EmptyConfig, ReviewEnv(env), ProvidersEnv(env))))
      && (k < |outcomes| && outcomes[k].Err? ==> r == Err(outcomes[k].message))
      && (k < |outcomes| && outcomes[k].Ok? ==> r == Ok(WithOverrides(outcomes[k].value.value, ReviewEnv(env), ProvidersEnv(env))))
  {
    ghost var outcomes := Outcomes(readConfigFile, packageConfig);
    for i := 0 to |ConfigFileNames|
      invariant forall j :: 0 <= j < i ==> outcomes[j] == Ok(None)
    {
      var config := readConfigFile(ConfigFileNames[i]);
      if config.Err? {
        return Err(config.message);
      }
      if config.value.Some? {
        var c := ApplyEnvironmentOverrides(config.value.value, env);
        return Ok(c);
      }
    }
    if packageConfig.Err? {
      return Err(packageConfig.message);
    }
    if packageConfig.value.Some? {
      var c := ApplyEnvironmentOverrides(packageConfig.value.value, env);
      return Ok(c);
    }
    var c := ApplyEnvironmentOverrides(EmptyConfig, env);
    return Ok(c);
  }
}
