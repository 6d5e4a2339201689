/**
 * The `kodus review` command of src/commands/review.ts: the command-line options are
 * validated in a fixed order, the base ref is chosen, the diff and the changed files are
 * read from git, the context is collected, the prompt is built and, when asked, the
 * payload is sent to the Kodus API; a failed send is recorded in the payload and never
 * aborts the command.
 */
module Review {
  import opened Wrappers
  import opened Strings
  import Paths
  import Context
  import ContextCollector
  import Git
  import Config
  import Prompt
  import Providers

  // ---------------------------------------------------------------------------
  // The provider

  function InvalidProviderError(provider: string): string {
    "Provider invalido \"" + provider + "\". Use \"claude\" ou \"codex\"."
  }

  /**
   * `normalizeProvider`: a missing or empty name means claude; otherwise the name,
   * trimmed and lower-cased, must be one of the two providers.
   */
  function NormalizeProvider(provider: Option<string>): (r: Result<Config.Provider>)
    ensures !Config.IsSet(provider) ==> r == Ok(Config.Claude)
    ensures Config.IsSet(provider) ==>
      && (r.Ok? <==> Config.ProviderNamed(Lower(Trim(provider.value))).Some?)
      && (r.Ok? ==> Config.ProviderName(r.value) == Lower(Trim(provider.value)))
      && (r.Err? ==> r.message == InvalidProviderError(provider.value))
  {
    if !Config.IsSet(provider) then Ok(Config.Claude)
    else
      match Config.ProviderNamed(Lower(Trim(provider.value)))
      case Some(p) => Ok(p)
      case None => Err(InvalidProviderError(provider.value))
  }

  /** A name made of lower-case ASCII letters is its own trim and its own lower case. */
  lemma LowerLettersAreNormal(s: string)
    requires forall i :: 0 <= i < |s| ==> 'a' <= s[i] <= 'z'
    ensures Lower(Trim(s)) == s
  {
    if s != [] {
      assert !IsWhitespace(s[0]) && !IsWhitespace(s[|s| - 1]);
    }
    assert IsTrimmed(s);
    TrimOfTrimmed(s);
  }

  /** A provider's name is made of lower-case ASCII letters. */
  lemma ProviderNameLetters(p: Config.Provider)
    ensures forall i :: 0 <= i < |Config.ProviderName(p)| ==> 'a' <= Config.ProviderName(p)[i] <= 'z'
  {
    match p
    case Claude => assert Config.ProviderName(p) == "claude";
    case Codex => assert Config.ProviderName(p) == "codex";
  }

  /** Every provider is accepted under its own name. */
  lemma NormalizeProviderRoundTrip(p: Config.Provider)
    ensures NormalizeProvider(Some(Config.ProviderName(p))) == Ok(p)
  {
    var name := Config.ProviderName(p);
    ProviderNameLetters(p);
    LowerLettersAreNormal(name);
    Config.ProviderNameRoundTrip(p);
  }

  // ---------------------------------------------------------------------------
  // Integer options

  /** How the error message describes the accepted values. */
  function Comparator(min: int): string {
    if min == 0 then "inteiro maior ou igual a zero" else "inteiro maior ou igual a " + IntToDecimal(min)
  }

  function InvalidIntegerError(flag: string, value: string, min: int): string {
    "Valor invalido para --" + flag + ": \"" + value + "\". Informe um " + Comparator(min) + "."
  }

  /**
   * `parseIntegerOption`: an absent option gives the fallback, which is not validated;
   * a given option must parse (as `parseInt` does) to a number of at least `min`.
   */
  function ParseIntegerOption(value: Option<string>, fallback: int, flag: string, min: int): (r: Result<int>)
    ensures value.None? ==> r == Ok(fallback)
    ensures value.Some? ==>
      && (r.Ok? <==> ParseInt(value.value).Some? && ParseInt(value.value).value >= min)
      && (r.Ok? ==> r.value == ParseInt(value.value).value && r.value >= min)
      && (r.Err? ==> r.message == InvalidIntegerError(flag, value.value, min))
  {
    if value.None? then Ok(fallback)
    else
      var parsed := ParseInt(value.value);
      if parsed.None? || parsed.value < min then Err(InvalidIntegerError(flag, value.value, min))
      else Ok(parsed.value)
  }

  /** A number written out in decimal is accepted exactly when it reaches `min`, and read back unchanged. */
  lemma ParseIntegerOptionOfDecimal(n: int, fallback: int, flag: string, min: int)
    ensures ParseIntegerOption(Some(IntToDecimal(n)), fallback, flag, min) ==
      (if n >= min then Ok(n) else Err(InvalidIntegerError(flag, IntToDecimal(n), min)))
  {
    ParseIntOfDecimal(n);
  }

  /** A non-empty option is accepted exactly when the same text in the environment would be. */
  lemma IntegerOptionAgreesWithEnvironment(s: string, fallback: int, flag: string, min: int)
    requires s != ""
    ensures ParseIntegerOption(Some(s), fallback, flag, min).Ok? <==> Config.EnvCount(Some(s), min).Some?
    ensures ParseIntegerOption(Some(s), fallback, flag, min).Ok? ==>
      Config.EnvCount(Some(s), min) == Some(ParseIntegerOption(Some(s), fallback, flag, min).value)
  {
  }

  const DefaultMaxFiles := 15
  const DefaultFollowDepth := 1

  /** `--max-files`: at least 1, 15 unless the configuration says otherwise. */
  function ResolveMaxFiles(option: Option<string>, defaults: Config.ReviewDefaults): (r: Result<int>)
    ensures option.None? ==> r == Ok(defaults.maxFiles.GetOr(DefaultMaxFiles))
    ensures option.Some? && r.Ok? ==> r.value >= 1
  {
    ParseIntegerOption(option, defaults.maxFiles.GetOr(DefaultMaxFiles), "max-files", 1)
  }

  /** `--follow-depth`: at least 0, 1 unless the configuration says otherwise. */
  function ResolveFollowDepth(option: Option<string>, defaults: Config.ReviewDefaults): (r: Result<int>)
    ensures option.None? ==> r == Ok(defaults.followDepth.GetOr(DefaultFollowDepth))
    ensures option.Some? && r.Ok? ==> r.value >= 0
  {
    ParseIntegerOption(option, defaults.followDepth.GetOr(DefaultFollowDepth), "follow-depth", 0)
  }

  /** With nothing configured, the defaults are 15 files and one level of imports. */
  lemma BuiltInLimits()
    ensures ResolveMaxFiles(None, Config.NoReviewDefaults) == Ok(15)
    ensures ResolveFollowDepth(None, Config.NoReviewDefaults) == Ok(1)
  {
  }

  // ---------------------------------------------------------------------------
  // The send flag

  /** `--send` as commander hands it over: a bare flag, a value, or nothing. */
  datatype SendOption = SendFlag(flag: bool) | SendText(text: string) | SendUnset

  const TrueWords: set<string> := {"true", "1", "yes", "y"}
  const FalseWords: set<string> := {"false", "0", "no", "n"}

  function InvalidSendError(value: string): string {
    "Valor invalido para --send: \"" + value + "\". Utilize true/false ou 1/0."
  }

  /**
   * `resolveSendFlag`: a bare flag is taken as is; a value, trimmed and lower-cased, must
   * be one of the true or false words; without the option the configured default
   * applies, and without that, no send.
   */
  function ResolveSendFlag(value: SendOption, default: Option<bool>): (r: Result<bool>)
    ensures value.SendFlag? ==> r == Ok(value.flag)
    ensures value.SendUnset? ==> r == Ok(default.GetOr(false))
    ensures value.SendText? ==>
      var word := Lower(Trim(value.text));
      && (word in TrueWords ==> r == Ok(true))
      && (word !in TrueWords && word in FalseWords ==> r == Ok(false))
      && (word !in TrueWords && word !in FalseWords ==> r == Err(InvalidSendError(value.text)))
  {
    match value
    case SendFlag(b) => Ok(b)
    case SendUnset => Ok(default.GetOr(false))
    case SendText(s) =>
      var word := Lower(Trim(s));
      if word in TrueWords then Ok(true)
      else if word in FalseWords then Ok(false)
      else Err(InvalidSendError(s))
  }

  /** No word means both yes and no. */
  lemma SendWordsDisjoint()
    ensures TrueWords !! FalseWords
  {
  }

  /** Every value the environment accepts for sending means the same on the command line. */
  lemma SendFlagAgreesWithEnvironment(s: string, default: Option<bool>)
    requires Config.EnvSend(Some(s)).Some?
    ensures ResolveSendFlag(SendText(s), default) == Ok(Config.EnvSend(Some(s)).value)
  {
    var word := Lower(Trim(s));
    if Config.EnvSend(Some(s)) == Some(true) {
      assert word == "true" || word == "1";
      assert word in TrueWords;
    } else {
      assert word == "false" || word == "0";
      SendWordsDisjoint();
      assert word in FalseWords;
    }
  }

  // ---------------------------------------------------------------------------
  // The text shown after a send

  /**
   * `extractResponseText`: a non-blank message wins; otherwise the data, as is when it
   * is a string and rendered by `stringify` (`JSON.stringify(data, null, 2)`) when it is
   * any other JSON value; nothing without a result or without data.
   */
  function ExtractResponseText(result: Option<Providers.SendReviewResult>, stringify: Providers.Json -> string): (r: Option<string>)
    ensures result.None? ==> r.None?
    ensures result.Some? ==>
      var message, data := result.value.message, result.value.data;
      if message.Some? && |Trim(message.value)| > 0 then r == message
      else
        && (r.None? <==> data.None? || data.value.JNull?)
        && (data.Some? && data.value.JString? ==> r == Some(data.value.s))
        && (data.Some? && !data.value.JNull? && !data.value.JString? ==> r == Some(stringify(data.value)))
  {
    if result.None? then None
    else
      var message, data := result.value.message, result.value.data;
      if message.Some? && |Trim(message.value)| > 0 then message
      else if data.None? || data.value.JNull? then None
      else if data.value.JString? then Some(data.value.s)
      else Some(stringify(data.value))
  }

  /** A 2xx JSON answer with a non-blank `review` field shows that field. */
  lemma ReviewFieldIsShown(
    response: Providers.HttpResponse, parse: string -> Option<Providers.Json>,
    fields: map<string, Providers.Json>, stringify: Providers.Json -> string)
    requires response.ok && response.raw != "" && parse(response.raw) == Some(Providers.JObject(fields))
    requires Providers.IsMessage(fields, "review")
    ensures var sent := Providers.ClassifyResponse(Ok(response), parse);
      sent.Ok? && ExtractResponseText(Some(sent.value), stringify) == Some(fields["review"].s)
  {
    Providers.ReviewFieldFirst(fields);
    Providers.ExtractedMessageIsNotBlank(Providers.JObject(fields));
  }

  /** A 2xx answer that is not JSON shows its text. */
  lemma PlainAnswerIsShown(response: Providers.HttpResponse, parse: string -> Option<Providers.Json>, stringify: Providers.Json -> string)
    requires response.ok && response.raw != "" && parse(response.raw).None?
    ensures var sent := Providers.ClassifyResponse(Ok(response), parse);
      sent.Ok? && ExtractResponseText(Some(sent.value), stringify) == Some(response.raw)
  {
  }

  // ---------------------------------------------------------------------------
  // The base ref

  /** The refs tried, in order, when neither an option nor an upstream names the base. */
  const FallbackRefs: seq<string> := ["origin/main", "origin/master", "main", "master"]

  function UnknownBaseError(ref: string): string {
    "A ref base informada \"" + ref + "\" nao foi encontrada. Verifique o nome ou busque com git fetch."
  }

  const NoDefaultBaseError := "Nao foi possivel determinar uma base padrao. Informe manualmente usando --base <ref>."

  /** The first candidate from `k` on that exists, or `|candidates|` when none does. */
  function FirstExistingRef(candidates: seq<string>, refs: set<string>, k: nat): (i: nat)
    requires k <= |candidates|
    ensures k <= i <= |candidates|
    ensures i < |candidates| ==> candidates[i] in refs
    ensures forall j :: k <= j < i ==> candidates[j] !in refs
    decreases |candidates| - k
  {
    if k == |candidates| || candidates[k] in refs then k else FirstExistingRef(candidates, refs, k + 1)
  }

  /** An upstream that `git rev-parse @{upstream}` printed (`None` when it failed) and that can serve as base. */
  predicate UsableUpstream(upstream: Option<string>, refs: set<string>) {
    upstream.Some? && Trim(upstream.value) != "" && Trim(upstream.value) in refs
  }

  /**
   * The base `resolveBaseRef` settles on; `refs` are the refs `git rev-parse --verify`
   * accepts. An explicit base is trimmed and must exist; otherwise a usable upstream
   * wins; otherwise the first existing fallback ref.
   */
  function BaseRefFor(baseOption: Option<string>, refs: set<string>, upstream: Option<string>): (r: Result<string>)
    ensures r.Ok? ==> r.value in refs
    ensures Config.IsSet(baseOption) ==>
      var t := Trim(baseOption.value);
      r == (if t in refs then Ok(t) else Err(UnknownBaseError(t)))
    ensures !Config.IsSet(baseOption) && UsableUpstream(upstream, refs) ==> r == Ok(Trim(upstream.value))
    ensures !Config.IsSet(baseOption) && !UsableUpstream(upstream, refs) ==>
      && (r.Err? <==> forall j :: 0 <= j < |FallbackRefs| ==> FallbackRefs[j] !in refs)
      && (r.Err? ==> r.message == NoDefaultBaseError)
      && (r.Ok? ==> exists i :: 0 <= i < |FallbackRefs| && r.value == FallbackRefs[i] &&
                      forall j :: 0 <= j < i ==> FallbackRefs[j] !in refs)
  {
    if Config.IsSet(baseOption) then
      var t := Trim(baseOption.value);
      if t in refs then Ok(t) else Err(UnknownBaseError(t))
    else if UsableUpstream(upstream, refs) then Ok(Trim(upstream.value))
    else
      var i := FirstExistingRef(FallbackRefs, refs, 0);
      if i < |FallbackRefs| then Ok(FallbackRefs[i]) else Err(NoDefaultBaseError)
  }

  /** With no option and no upstream, `origin/main` is preferred whenever it exists. */
  lemma OriginMainPreferred(refs: set<string>)
    requires "origin/main" in refs
    ensures BaseRefFor(None, refs, None) == Ok("origin/main")
  {
    assert FallbackRefs[0] == "origin/main";
  }

  /** `resolveBaseRef`, with its loop over the fallback refs. */
  method ResolveBaseRef(baseOption: Option<string>, refs: set<string>, upstream: Option<string>) returns (r: Result<string>)
    ensures r == BaseRefFor(baseOption, refs, upstream)
  {
    if Config.IsSet(baseOption) {
      var trimmed := Trim(baseOption.value);
      if trimmed !in refs {
        return Err(UnknownBaseError(trimmed));
      }
      return Ok(trimmed);
    }
    if upstream.Some? {
      var candidate := Trim(upstream.value);
      if candidate != "" && candidate in refs {
        return Ok(candidate);
      }
    }
    var candidates := FallbackRefs;
    for i := 0 to |candidates|
      invariant FirstExistingRef(candidates, refs, 0) == FirstExistingRef(candidates, refs, i)
    {
      if candidates[i] in refs {
        return Ok(candidates[i]);
      }
    }
    return Err(NoDefaultBaseError);
  }

  // ---------------------------------------------------------------------------
  // The changed paths

  /** The paths the changes name, without the missing and the empty ones, in order. */
  function NamedPaths(changes: seq<Git.FileChange>): (r: seq<string>)
    ensures |r| <= |changes|
    ensures forall i :: 0 <= i < |r| ==> r[i] != ""
  {
    if changes == [] then []
    else
      var init, last := NamedPaths(changes[..|changes| - 1]), changes[|changes| - 1];
      if last.path.Some? && last.path.value != "" then init + [last.path.value] else init
  }

  /** The paths to collect context for: every named path once, in order of first mention. */
  function ChangedPaths(changes: seq<Git.FileChange>): (r: seq<string>)
    ensures Distinct(r)
    ensures forall i :: 0 <= i < |r| ==> r[i] != ""
  {
    Dedup(NamedPaths(changes))
  }

  /** A path is named exactly when some change carries it and it is not empty. */
  lemma {:induction false} NamedPathsMembers(changes: seq<Git.FileChange>, p: string)
    ensures p in NamedPaths(changes) <==> p != "" && exists i :: 0 <= i < |changes| && changes[i].path == Some(p)
  {
    if changes != [] {
      var init := changes[..|changes| - 1];
      NamedPathsMembers(init, p);
      if exists i :: 0 <= i < |changes| && changes[i].path == Some(p) {
        var i :| 0 <= i < |changes| && changes[i].path == Some(p);
        if i < |changes| - 1 {
          assert init[i] == changes[i];
        }
      }
      if exists i :: 0 <= i < |init| && init[i].path == Some(p) {
        var i :| 0 <= i < |init| && init[i].path == Some(p);
        assert changes[i] == init[i];
      }
    }
  }

  /** The changed paths are exactly the non-empty paths of the changes. */
  lemma ChangedPathsMembers(changes: seq<Git.FileChange>, p: string)
    ensures p in ChangedPaths(changes) <==> p != "" && exists i :: 0 <= i < |changes| && changes[i].path == Some(p)
  {
    NamedPathsMembers(changes, p);
    var named := NamedPaths(changes);
    if p in named {
      var k :| 0 <= k < |named| && named[k] == p;
    }
  }

  /** Changes that name no path leave nothing to review. */
  lemma NoPathNoReview(changes: seq<Git.FileChange>)
    requires forall i :: 0 <= i < |changes| ==> changes[i].path.None? || changes[i].path == Some("")
    ensures ChangedPaths(changes) == []
  {
    if ChangedPaths(changes) != [] {
      var p := ChangedPaths(changes)[0];
      ChangedPathsMembers(changes, p);
      assert false;
    }
  }

  // ---------------------------------------------------------------------------
  // The command

  /** `ReviewCommandOptions`, without the output file and the clipboard switch. */
  datatype ReviewOptions = ReviewOptions(
    base: Option<string>,
    provider: Option<string>,
    maxFiles: Option<string>,
    followDepth: Option<string>,
    send: SendOption)

  /** What the options resolve to before git is asked for the diff. */
  datatype Settings = Settings(provider: Config.Provider, maxFiles: int, followDepth: int, shouldSend: bool, baseRef: string)

  /** `options.provider ?? defaults.provider`. */
  function ProviderOption(options: ReviewOptions, defaults: Config.ReviewDefaults): Option<string> {
    options.provider.OrElse(if defaults.provider.Some? then Some(Config.ProviderName(defaults.provider.value)) else None)
  }

  /**
   * The options, each over its configured default, checked in the order the command
   * checks them: provider, `--max-files`, `--follow-depth`, `--send`, then the base ref.
   * The first invalid one is the error.
   */
  function ResolveSettings(options: ReviewOptions, defaults: Config.ReviewDefaults, refs: set<string>, upstream: Option<string>): (r: Result<Settings>)
    ensures var provider := NormalizeProvider(ProviderOption(options, defaults));
      var maxFiles := ResolveMaxFiles(options.maxFiles, defaults);
      var followDepth := ResolveFollowDepth(options.followDepth, defaults);
      var send := ResolveSendFlag(options.send, defaults.send);
      var base := BaseRefFor(options.base.OrElse(defaults.base), refs, upstream);
      && (r.Ok? <==> provider.Ok? && maxFiles.Ok? && followDepth.Ok? && send.Ok? && base.Ok?)
      && (r.Ok? ==> r.value == Settings(provider.value, maxFiles.value, followDepth.value, send.value, base.value))
      && (provider.Err? ==> r == Err(provider.message))
      && (provider.Ok? && maxFiles.Err? ==> r == Err(maxFiles.message))
      && (provider.Ok? && maxFiles.Ok? && followDepth.Err? ==> r == Err(followDepth.message))
      && (provider.Ok? && maxFiles.Ok? && followDepth.Ok? && send.Err? ==> r == Err(send.message))
      && (provider.Ok? && maxFiles.Ok? && followDepth.Ok? && send.Ok? && base.Err? ==> r == Err(base.message))
  {
    var provider := NormalizeProvider(ProviderOption(options, defaults));
    var maxFiles := ResolveMaxFiles(options.maxFiles, defaults);
    var followDepth := ResolveFollowDepth(options.followDepth, defaults);
    var send := ResolveSendFlag(options.send, defaults.send);
    if provider.Err? then Err(provider.message)
    else if maxFiles.Err? then Err(maxFiles.message)
    else if followDepth.Err? then Err(followDepth.message)
    else if send.Err? then Err(send.message)
    else
      var base := BaseRefFor(options.base.OrElse(defaults.base), refs, upstream);
      if base.Err? then Err(base.message)
      else Ok(Settings(provider.value, maxFiles.value, followDepth.value, send.value, base.value))
  }

  /** The first lines of `runReview`: each option over its default, checked in order, then the base ref. */
  method ResolveOptions(options: ReviewOptions, defaults: Config.ReviewDefaults, refs: set<string>, upstream: Option<string>)
    returns (r: Result<Settings>)
    ensures r == ResolveSettings(options, defaults, refs, upstream)
  {
    var provider := NormalizeProvider(ProviderOption(options, defaults));
    if provider.Err? {
      return Err(provider.message);
    }
    var maxFiles := ResolveMaxFiles(options.maxFiles, defaults);
    if maxFiles.Err? {
      return Err(maxFiles.message);
    }
    var followDepth := ResolveFollowDepth(options.followDepth, defaults);
    if followDepth.Err? {
      return Err(followDepth.message);
    }
    var shouldSend := ResolveSendFlag(options.send, defaults.send);
    if shouldSend.Err? {
      return Err(shouldSend.message);
    }
    var baseRef := ResolveBaseRef(options.base.OrElse(defaults.base), refs, upstream);
    if baseRef.Err? {
      return Err(baseRef.message);
    }
    return Ok(Settings(provider.value, maxFiles.value, followDepth.value, shouldSend.value, baseRef.value));
  }

  /** Resolved settings always name an existing base, and options given on the command line are in range. */
  lemma SettingsInRange(options: ReviewOptions, defaults: Config.ReviewDefaults, refs: set<string>, upstream: Option<string>)
    ensures var r := ResolveSettings(options, defaults, refs, upstream);
      r.Ok? ==>
        && r.value.baseRef in refs
        && (options.maxFiles.Some? ==> r.value.maxFiles >= 1)
        && (options.followDepth.Some? ==> r.value.followDepth >= 0)
  {
  }

  function DiffError(baseRef: string, message: string): string {
    "Nao foi possivel coletar o diff usando a base \"" + baseRef + "\". Verifique se o ref existe. " + message
  }

  /** The two git reads, `git diff` then `git diff --name-status`; the first failure is wrapped. */
  function GitOutputs(baseRef: string, gitDiff: string -> Result<string>, gitNameStatus: string -> Result<string>): (r: Result<(string, string)>)
    ensures gitDiff(baseRef).Err? ==> r == Err(DiffError(baseRef, gitDiff(baseRef).message))
    ensures gitDiff(baseRef).Ok? && gitNameStatus(baseRef).Err? ==> r == Err(DiffError(baseRef, gitNameStatus(baseRef).message))
    ensures r.Ok? <==> gitDiff(baseRef).Ok? && gitNameStatus(baseRef).Ok?
    ensures r.Ok? ==> r.value == (gitDiff(baseRef).value, gitNameStatus(baseRef).value)
  {
    var diff := gitDiff(baseRef);
    if diff.Err? then Err(DiffError(baseRef, diff.message))
    else
      var nameStatus := gitNameStatus(baseRef);
      if nameStatus.Err? then Err(DiffError(baseRef, nameStatus.message))
      else Ok((diff.value, nameStatus.value))
  }

  /** What a failed send leaves in the payload: not ok, status 0, and the error's message. */
  function FailedSend(message: string): (r: Providers.SendReviewResult)
    ensures !r.ok && r.status == 0 && r.message == Some(message)
  {
    Providers.SendReviewResult(false, 0, None, None, Some(message))
  }

  /** The provider response recorded for an attempted send, whatever its outcome. */
  function Recorded(outcome: Result<Providers.SendReviewResult>): (r: Providers.SendReviewResult)
    ensures outcome.Ok? ==> r == outcome.value
    ensures outcome.Err? ==> r == FailedSend(outcome.message)
  {
    if outcome.Ok? then outcome.value else FailedSend(outcome.message)
  }

  /** A recorded response is ok exactly when the send succeeded. */
  lemma RecordedOkIffSent(outcome: Result<Providers.SendReviewResult>)
    requires outcome.Ok? ==> outcome.value.ok
    ensures Recorded(outcome).ok <==> outcome.Ok?
  {
  }

  /**
   * The payload the command assembles from what it resolved and read: the settings,
   * git's outputs, the context files and skipped paths of the walk from the changed
   * paths under the settings' depth and cap (with what `Collected` states of them),
   * the prompt built from them, the statistics, and the provider response, present
   * exactly when a send was asked for.
   */
  predicate Describes(
    p: Providers.ReviewPayload, settings: Settings, generatedAt: string,
    branch: Option<string>, headSha: Option<string>, diff: string, changes: seq<Git.FileChange>,
    root: Paths.Path, fs: Paths.FileSystem, scan: string -> seq<string>, decode: seq<bv8> -> string,
    config: Config.KodusConfig, env: Config.Environment,
    resolveUrl: (string, string) -> Result<string>,
    fetch: Providers.HttpRequest -> Result<Providers.HttpResponse>,
    parse: string -> Option<Providers.Json>)
  {
    && p.provider == settings.provider
    && p.generatedAt == generatedAt
    && p.baseRef == settings.baseRef
    && p.branch == branch && p.headSha == headSha
    && p.diff == diff
    && p.changedFiles == changes
    && Paths.IsNormal(root)
    && (var walked := Context.Collect(fs, Context.CollectContextOptions(root, ChangedPaths(changes), settings.followDepth, settings.maxFiles),
          scan, decode);
        walked.Ok? && p.contextFiles == walked.value.files && p.stats.skipped == walked.value.skipped)
    && Context.Collected(fs, Context.CollectContextOptions(root, ChangedPaths(changes), settings.followDepth, settings.maxFiles),
         scan, decode, p.contextFiles, p.stats.skipped)
    && p.stats.changedFiles == |ChangedPaths(changes)|
    && p.stats.contextFiles == |p.contextFiles|
    && p.stats.followDepth == settings.followDepth
    && p.stats.maxFiles == settings.maxFiles
    && p.prompt == Prompt.BuildPrompt(Prompt.BuildPromptArgs(
         settings.provider, settings.baseRef, branch, headSha, diff, p.contextFiles, changes))
    && p.providerResponse == (if settings.shouldSend then
         Some(Recorded(Providers.SendOutcome(config, env, p.(providerResponse := None), resolveUrl, fetch, parse)))
       else None)
  }

  /**
   * The second half of `runReview`, once there are changed paths: collect the context,
   * build the prompt and the payload, and send it when asked. Only reading the context
   * can fail; a failed send is recorded in the payload.
   */
  method AssemblePayload(
    settings: Settings, config: Config.KodusConfig, env: Config.Environment,
    root: Paths.Path, fs: Paths.FileSystem, scan: string -> seq<string>, decode: seq<bv8> -> string,
    branch: Option<string>, headSha: Option<string>, diff: string, changes: seq<Git.FileChange>,
    generatedAt: string,
    resolveUrl: (string, string) -> Result<string>,
    fetch: Providers.HttpRequest -> Result<Providers.HttpResponse>,
    parse: string -> Option<Providers.Json>)
    returns (r: Result<Providers.ReviewPayload>)
    requires Paths.IsNormal(root)
    ensures r.Err? ==> r.message == Context.DirectoryReadError
    ensures r.Err? <==>
      Context.Collect(fs, Context.CollectContextOptions(root, ChangedPaths(changes), settings.followDepth, settings.maxFiles), scan, decode).Err?
    ensures r.Ok? ==>
      Describes(r.value, settings, generatedAt, branch, headSha, diff, changes, root, fs, scan, decode, config, env, resolveUrl, fetch, parse)
    // The first disjunct covers a negative `maxFiles` from an unchecked configuration file: no entry is taken.
    ensures r.Ok? ==> |r.value.contextFiles| == 0 || |r.value.contextFiles| <= settings.maxFiles
  {
    var changedPaths := ChangedPaths(changes);
    var contextResult, capped := ContextCollector.CollectContextFiles(
      fs, Context.CollectContextOptions(root, changedPaths, settings.followDepth, settings.maxFiles), scan, decode);
    if contextResult.Err? {
      return Err(contextResult.message);
    }
    var files := contextResult.value.files;
    var prompt := Prompt.BuildPrompt(Prompt.BuildPromptArgs(
      settings.provider, settings.baseRef, branch, headSha, diff, files, changes));
    var stats := Providers.Stats(|changedPaths|, |files|, settings.followDepth, settings.maxFiles, contextResult.value.skipped);
    var payload := Providers.ReviewPayload(
      settings.provider, generatedAt, settings.baseRef, branch, headSha, diff, changes, files, prompt, stats, None);

    if settings.shouldSend {
      var sent := Providers.SendReview(config, env, payload, resolveUrl, fetch, parse);
      if sent.Ok? {
        payload := payload.(providerResponse := Some(sent.value));
      } else {
        payload := payload.(providerResponse := Some(FailedSend(sent.message)));
      }
    }
    return Ok(payload);
  }

  /**
   * `runReview`. The environment of the command is given: the git root (normalised),
   * what `loadConfig` gave (see `Config.LoadConfig`), the refs that exist, the upstream,
   * the branch, the head commit, git's two diff outputs for a base, the clock's reading,
   * and the HTTP exchange. A failed load ends the command first; then the options are
   * checked, in order; then git is read; no changed path ends the command early with
   * `Ok(None)`; otherwise the payload is assembled, and only reading the context can
   * still fail.
   */
  method RunReview(
    options: ReviewOptions, loaded: Result<Config.KodusConfig>, env: Config.Environment,
    root: Paths.Path, fs: Paths.FileSystem, scan: string -> seq<string>, decode: seq<bv8> -> string,
    refs: set<string>, upstream: Option<string>, branch: Option<string>, headSha: Option<string>,
    gitDiff: string -> Result<string>, gitNameStatus: string -> Result<string>,
    generatedAt: string,
    resolveUrl: (string, string) -> Result<string>,
    fetch: Providers.HttpRequest -> Result<Providers.HttpResponse>,
    parse: string -> Option<Providers.Json>)
    returns (r: Result<Option<Providers.ReviewPayload>>)
    requires Paths.IsNormal(root)
    ensures loaded.Err? ==> r == Err(loaded.message)
    ensures loaded.Ok? ==>
      var config := loaded.value;
      var settings := ResolveSettings(options, Config.ResolveReviewDefaults(config), refs, upstream);
      && (settings.Err? ==> r == Err(settings.message))
      && (settings.Ok? ==>
            var git := GitOutputs(settings.value.baseRef, gitDiff, gitNameStatus);
            && (git.Err? ==> r == Err(git.message))
            && (git.Ok? ==>
                  var changes := Git.GetChangedFiles(git.value.1);
                  && (ChangedPaths(changes) == [] <==> r == Ok(None))
                  // Only reading the context can fail from here on; a failed send is recorded.
                  && (ChangedPaths(changes) != [] ==>
                        (r.Err? <==> Context.Collect(fs, Context.CollectContextOptions(root, ChangedPaths(changes),
                           settings.value.followDepth, settings.value.maxFiles), scan, decode).Err?))
                  && (r.Err? ==> r.message == Context.DirectoryReadError)
                  && (r.Ok? && r.value.Some? ==>
                        && Describes(r.value.value, settings.value, generatedAt, branch, headSha,
                             git.value.0, changes, root, fs, scan, decode, config, env, resolveUrl, fetch, parse)
                        // No entry is taken under a negative `maxFiles`.
                        && (|r.value.value.contextFiles| == 0 || |r.value.value.contextFiles| <= settings.value.maxFiles))))
  {
    if loaded.Err? {
      return Err(loaded.message);
    }
    var config := loaded.value;
    var resolved := ResolveOptions(options, Config.ResolveReviewDefaults(config), refs, upstream);
    if resolved.Err? {
      return Err(resolved.message);
    }
    var settings := resolved.value;
    var baseRef := settings.baseRef;

    var diff := gitDiff(baseRef);
    if diff.Err? {
      return Err(DiffError(baseRef, diff.message));
    }
    var nameStatus := gitNameStatus(baseRef);
    if nameStatus.Err? {
      return Err(DiffError(baseRef, nameStatus.message));
    }
    var changes := Git.GetChangedFiles(nameStatus.value);
    if |ChangedPaths(changes)| == 0 {
      return Ok(None);
    }

    var payload := AssemblePayload(
      settings, config, env, root, fs, scan, decode, branch, headSha, diff.value, changes,
      generatedAt, resolveUrl, fetch, parse);
    if payload.Err? {
      return Err(payload.message);
    }
    return Ok(Some(payload.value));
  }
}
