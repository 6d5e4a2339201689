# kodus review, modelled in Dafny

This project models the core of the `kodus` command-line tool, a TypeScript program
that prepares a code review for a Git branch. `kodus review`:

- validates its options against the defaults found in `kodus.config.*`, `package.json`
  and the environment;
- picks the base ref;
- reads `git diff` and `git diff --name-status` against it;
- walks the relative imports of the changed files to gather context files;
- renders a Portuguese review prompt;
- optionally posts the payload to the Kodus API. A failed post is recorded in the
  payload and never aborts the command.

Modules, one per source file plus three for the language primitives they rely on:

| module | file | models |
|---|---|---|
| `Wrappers` | wrappers.dfy | `undefined` (`Option`) and a thrown `Error` (`Result`) |
| `Strings` | strings.dfy | `trim`, `toLowerCase`, `split`/`join`, `startsWith`, `Number.parseInt`, number printing, `Array.from(new Set(…))`, `filter` |
| `Paths` | paths.dfy | POSIX `path.resolve`, `path.relative`, `path.extname`, `path.dirname` on segment lists; the working tree as a map from paths to bytes plus a set of directories |
| `Context` | context.dfy | src/lib/context.ts as values: file classification, import resolution, the collector's walk as a function (`Collect`), and the walk invariant of the collector with one lemma per kind of loop step |
| `ContextCollector` | collector.dfy | the loops of `collectContextFiles`, proved to compute `Collect` and to keep that invariant |
| `Git` | git.dfy | the `--name-status` parser of src/lib/git.ts |
| `Config` | config.dfy | src/lib/config.ts: environment extraction, the override merge, source selection |
| `Prompt` | prompt.dfy | src/lib/prompt.ts: the prompt text |
| `Providers` | providers.dfy | src/lib/providers.ts: endpoint, token, request body, response classification |
| `Review` | review.dfy | src/commands/review.ts: option validation, base ref, changed paths, the command itself |

The pure code is modelled as functions. The loops and the step-by-step state changes are
methods with loop invariants, each proved against a specification function:
`collectContextFiles`, `resolveImportPath`, `extractRelativeDependencies`,
`extractReviewEnv`, `extractProvidersEnv`, `loadConfig`, `buildRequestBody`,
`sendReview`, `resolveBaseRef` and `runReview`.

Effects become inputs to the model:

- the file system is a value;
- the regular-expression scan of import statements is a function from text to specifiers;
- UTF-8 decoding is a function from bytes to text;
- every git call is its output, or the set of refs that exist;
- the configuration `runReview` loads is the outcome of `loadConfig` (`Config.LoadConfig`):
  a configuration, or the error that ends the command before any option is checked;
- `new URL(…)` resolution is a function of two strings that may fail, as the constructor may throw;
- `fetch` is a function from the request to a response or an error;
- `JSON.parse` and `JSON.stringify` are functions;
- the clock is the `generatedAt` string.

Three behaviours of the code that its declarations and option checks do not show, and
that the model follows:

- The `KodusConfig` type in src/lib/config.ts:19-25 has no `api` section, but
  src/lib/providers.ts:40-45 reads `config.api.baseUrl`, `reviewPath` and `token`. The
  model gives `KodusConfig` an optional `api` field. The file readers of `loadConfig`
  pass whatever the file holds, so such a section reaches `sendReview` untouched.
- The lower bounds `maxFiles ≥ 1` and `followDepth ≥ 0` are enforced only where a value
  arrives as text: on the command line (src/commands/review.ts:33-44, 191-199) and in the
  environment (src/lib/config.ts:107-118). A `maxFiles` or `followDepth` read from a
  configuration file reaches the collector unchecked. The collector model therefore takes
  both limits as unbounded integers; under a negative `maxFiles` no entry is taken, so
  the bound on the number of entries reads "none, or at most `maxFiles`".
- The escape test `path.relative(root, p).startsWith('..')` (src/lib/context.ts:56, 190)
  also rejects a path inside the root whose first segment begins with two dots, such as
  `..cache/x.ts`. `Paths.EscapesRootIff` states that exactly.

## Model

| member | source | states |
|---|---|---|
| Strings.Trim | src/lib/git.ts:52 | the trim is no longer than the input and has no whitespace at either end |
| Strings.TrimSlice | src/lib/git.ts:52 | the trim is a slice of the input with only whitespace before and after it |
| Strings.TrimEmptyIffBlank | src/lib/prompt.ts:50 | `s.trim()` is empty exactly when every character of `s` is whitespace |
| Strings.TrimIdempotent | src/lib/git.ts:52 | trimming twice is trimming once |
| Strings.Lower | src/lib/prompt.ts:88 | `toLowerCase` maps each character on its own and keeps the length |
| Strings.SplitJoin | src/lib/git.ts:51 | splitting the join of separator-free parts on the separator gives back the parts |
| Strings.JoinSplit | src/lib/git.ts:51 | joining the split of a string on its separator gives back the string |
| Strings.ParseIntOfDecimal | src/commands/review.ts:194 | `parseInt` reads back every integer written in decimal |
| Strings.Dedup | src/commands/review.ts:70-72 | `Array.from(new Set(s))` holds exactly the elements of `s`, each once |
| Strings.DedupFirstOccurrenceOrder | src/commands/review.ts:70-72 | the de-duplicated elements keep the order of their first occurrence |
| Strings.DedupOfDistinct | src/lib/context.ts:142-156 | a sequence without repetitions is unchanged by de-duplication |
| Paths.Resolve | src/lib/context.ts:54 | `path.resolve(root, p)` is an absolute, normalised path |
| Paths.RelativeRoundTrip | src/lib/context.ts:55 | resolving `path.relative(from, to)` against `from` gives back `to` |
| Paths.EscapesRootIff | src/lib/context.ts:55-56 | the `startsWith('..')` test holds exactly for a path outside the root or one whose first segment below the root starts with two dots |
| Paths.LastIndexOfIsLast | src/lib/context.ts:219 | no occurrence of the character follows the position found, so it is the last one |
| Paths.ExtnameOfBaseShape | src/lib/context.ts:219 | `path.extname` is empty or a suffix that starts with its only dot and is shorter than the name |
| Paths.AppendExtension | src/lib/context.ts:204 | appending an extension changes only the last segment of the path |
| Context.NormalizeRelativePath | src/lib/context.ts:106-108 | the result has no backslash and the same length; a path without backslashes is unchanged |
| Context.SafelyReadTextFile | src/lib/context.ts:110-133 | a directory is an error; an absent file is missing; bytes holding 0 are binary; other files are text, truncated exactly when longer than 204800 bytes, to their first 204800 characters |
| Context.TruncatedContentBound | src/lib/context.ts:120-125 | a step for the collector's proofs, read off the definition of `SafelyReadTextFile`: truncated content has at most 204800 characters and is a prefix of the decoded file |
| Context.RelativeSpecifiers | src/lib/context.ts:151-159 | the specifiers kept are exactly the matches starting with `.`, each once |
| Context.BuildCandidatePaths | src/lib/context.ts:201-207 | the base first, then the base with each importable extension in order |
| Context.FirstIndexFile | src/lib/context.ts:180-186 | the first `index.<ext>` inside a directory that exists, in extension order |
| Context.FirstResolving | src/lib/context.ts:176-196 | the first candidate that yields a result; none of the earlier ones does |
| Context.ResolveImport | src/lib/context.ts:171-199 | a resolved import never holds a backslash |
| Context.ResolvedImportShape | src/lib/context.ts:179-192 | a result outside the root can only come from a directory's index file; a plain file outside the root is never accepted |
| Context.ResolveImportPath | src/lib/context.ts:171-199 | the loop over the candidates returns what `ResolveImport` specifies |
| Context.ResolveAll | src/lib/context.ts:161-167 | unresolvable specifiers are dropped, so there are no more results than specifiers, none with a backslash |
| Context.ResolveAllSound | src/lib/context.ts:161-167 | each dependency is the resolution of one of the specifiers |
| Context.ExtractRelativeDependencies | src/lib/context.ts:135-169 | the loops return what `Dependencies` specifies |
| Context.DependenciesOf | src/lib/context.ts:86-94 | only a text entry whose extension is importable has dependencies; they never hold a backslash |
| Context.RevisitStep | src/lib/context.ts:48-51 | a path already visited is dropped, with no other effect, and the walk invariant holds |
| Context.SkipStep | src/lib/context.ts:52-59 | a path escaping the root is visited and recorded as skipped with " (fora do repositorio)", and the invariant holds |
| Context.EmitStep | src/lib/context.ts:61-84 | a path inside the root is emitted with its queued depth and reason, and the invariant holds |
| Context.EnqueueStep | src/lib/context.ts:99 | queueing a dependency one level below the last emitted entry keeps the invariant |
| Context.ExpansionFollowed | src/lib/context.ts:86-100 | a step for `FollowEntry`'s proof, read off the definition of `FollowedDependencies`: below the depth limit, the entries queued for a file are the first `maxFiles − emitted − queued` of its dependencies, none when that is not positive |
| Context.ExpansionUnfollowed | src/lib/context.ts:86-92 | a file without content, at the depth limit or with an extension that is not importable queues nothing |
| Context.WalkResult | src/lib/context.ts:44-103 | the invariant at exit gives `Collected`: visited is emitted plus skipped, and every changed file and every dependency of an entry below the depth limit is visited unless the cap stopped the walk; the cap can cut off dependencies only once changed files plus dependencies found reach `maxFiles` |
| ContextCollector.EnqueueDependencies | src/lib/context.ts:95-100 | the dependencies are queued in order, one level down, until emitted plus queued entries reach `maxFiles`: exactly the first `max(0, maxFiles − emitted − queued)` of them |
| ContextCollector.ImportableTest | src/lib/context.ts:218-221 | the verdict is that of `isImportableFile` on the path |
| ContextCollector.EntryDependencies | src/lib/context.ts:94 | the dependencies extracted from a followed file are exactly its edges in the walk, each one level below it and without a backslash |
| ContextCollector.FollowEntry | src/lib/context.ts:86-100 | the queue grows by the capped dependencies of the entry just emitted when it is followed, and by nothing otherwise; the walk invariant holds |
| ContextCollector.ReadEntry | src/lib/context.ts:61-84 | the entry takes its note or its content from reading the file; only a directory fails; the outcome is `EntryFor` of the queued path |
| ContextCollector.EmitFront | src/lib/context.ts:61-100 | one pass over a new path inside the root fails exactly on a directory, with the error of `EntryFor`; otherwise it emits the entry `EntryFor` gives, with the queued depth, and appends that entry's followed dependencies to the rest of the queue, keeping the walk invariant |
| ContextCollector.CollectContextFiles | src/lib/context.ts:33-104 | the result is `Collect`, the walk from the changed files pass by pass: which entries are emitted, which paths are visited and skipped, and where a directory read ends it, including after the cap cut off a dependency; of it: at most `maxFiles` entries; distinct paths; non-decreasing depths; only changed files at depth 0; each dependency is found in an earlier emitted file one level up; visited is emitted plus skipped; skipped paths are never emitted; below `maxFiles` every changed file is visited, and so is every dependency of a text entry below the depth limit with an importable extension, unless the cap cut some off, which needs changed files plus dependencies found to reach `maxFiles` |
| Context.EntryFor | src/lib/context.ts:61-84 | reading a directory is the only failure, with the directory error; otherwise the entry has the normalised path and the queued depth and reason |
| Context.Advance | src/lib/context.ts:45-100 | one pass never drops a visited path or an emitted entry; it either consumes the front without emitting or emits exactly one entry; it fails exactly on a new path inside the root that is a directory |
| Context.InitialQueue | src/lib/context.ts:40-42 | every changed file, in order, at depth 0 as a changed file |
| Context.WalkStops | src/lib/context.ts:44-103 | once the queue is empty or `maxFiles` entries are emitted, the walk's result is the current entries, visited paths and skipped paths |
| Context.WalkRevisits | src/lib/context.ts:48-51 | a visited front path is dropped and the walk's result is the walk from the rest of the queue |
| Context.WalkSkips | src/lib/context.ts:52-59 | a new front path outside the root is visited and recorded with the outside-root suffix, and the walk goes on to the same result |
| Context.WalkFails | src/lib/context.ts:61-68 | a new front path inside the root whose read fails ends the walk with that read's error |
| Context.WalkEmits | src/lib/context.ts:61-100 | a new front path inside the root becomes its entry and its followed dependencies are queued behind the rest, and the walk goes on to the same result |
| Context.FollowedAlongEdges | src/lib/context.ts:86-100 | the dependencies followed from an entry depend only on that entry's own dependencies |
| Context.AdvanceAlongEdges | src/lib/context.ts:45-100 | one pass is the same along any two dependency functions that give each entry its dependencies |
| Context.WalkAlongEdges | src/lib/context.ts:44-103 | the whole walk is the same along any two such dependency functions |
| Context.CollectAlongEdges | src/lib/context.ts:33-104 | `Collect` is the walk from the changed files along the dependency function the collector's loop uses |
| Context.WalkingStarts | src/lib/context.ts:35-43 | before the first pass, with only the changed files queued, the loop's invariant holds and its walk is `Collect` |
| Context.RevisitPass | src/lib/context.ts:48-51 | dropping a visited front path keeps the loop's invariant, its coverage and the result of its walk |
| Context.SkipPass | src/lib/context.ts:52-59 | skipping a front path outside the root keeps the loop's invariant, its coverage and the result of its walk |
| Context.FailPass | src/lib/context.ts:61-68 | a failed read at the front makes the result of the loop's walk that read's error |
| Context.EmitPass | src/lib/context.ts:61-100 | emitting the front entry and queueing its followed dependencies keeps the loop's coverage and the result of its walk, with the counts of popped and queued entries advanced |
| Context.WalkingStops | src/lib/context.ts:44-103 | when the loop stops, the result of its walk is its own state, and that state is `Collected` |
| Git.FirstChar | src/lib/git.ts:59 | `charAt(0)`: the first character, or empty |
| Git.ParseStatusLine | src/lib/git.ts:57-72 | the status is the first character; a rename or copy has an original path exactly when the line has a tab, and no path only without one; parsed paths hold no tab |
| Git.ParseRenameLine | src/lib/git.ts:60-66 | `R100\told\tnew` gives path `new` and original path `old` |
| Git.ParseRenameLineWithOnePath | src/lib/git.ts:65 | a rename with one path uses it as both the original and the new path |
| Git.ParseOtherLine | src/lib/git.ts:68-71 | any other status takes the second field as its path and has no original path |
| Git.ParseOtherLineWithoutPath | src/lib/git.ts:70 | a line with no path field gets the empty path |
| Git.NonBlankLines | src/lib/git.ts:50-53 | the lines kept are non-empty, trimmed and newline-free |
| Git.GetChangedFiles | src/lib/git.ts:48-55 | one record per non-blank line, in output order |
| Git.ChangedFilesOfLines | src/lib/git.ts:48-55 | printing clean lines and parsing them back gives one record per line |
| Git.TrimmedNonEmptyAppend | src/lib/git.ts:51-53 | the line filter works line by line: two runs of lines are filtered independently and stay in order |
| Git.StatusIsOneVisibleChar | src/lib/git.ts:52-59 | every parsed status is a single non-whitespace character |
| Config.ProviderNamed | src/lib/config.ts:103 | only "claude" and "codex" name a provider |
| Config.ProviderNameRoundTrip | src/lib/config.ts:13 | each provider is named by its own name |
| Config.EnvVar | src/lib/config.ts:98 | `process.env[name]` is defined exactly when the variable is |
| Config.WhenSet | src/lib/config.ts:98-100 | a value is taken only when it is defined and not empty |
| Config.EnvProvider | src/lib/config.ts:101-106 | the lower-cased value sets the provider only when it names one; other values are ignored |
| Config.EnvCount | src/lib/config.ts:107-118 | a count is set only when `parseInt` gives a number of at least the minimum |
| Config.EnvCountOfDecimal | src/lib/config.ts:107-118 | a decimal number at or above the minimum is taken as is |
| Config.EnvSend | src/lib/config.ts:119-126 | "true"/"1" give true and "false"/"0" false, after trimming and lower-casing; anything else leaves `send` unset |
| Config.ExtractReviewEnv | src/lib/config.ts:95-129 | the conditional assignments build `ReviewEnv`: each field is set exactly when its variable passes its check |
| Config.FirstDefinedIndex | src/lib/config.ts:135-138 | the `??` chain stops at the first variable that is defined |
| Config.FirstDefined | src/lib/config.ts:135-138 | the chain is undefined only when no variable is defined, and otherwise holds the first one's value |
| Config.EmptyFirstKeyHidesLaterKeys | src/lib/config.ts:135-141 | an empty first variable wins the `??` chain and then sets no `apiKey` |
| Config.Present | src/lib/config.ts:148-153 | a provider entry is added exactly when at least one field is set |
| Config.ExtractProvidersEnv | src/lib/config.ts:131-180 | the conditional assignments build `ProvidersEnv`; claude never gets an organization |
| Config.OverrideReviewFields | src/lib/config.ts:87-90 | each review field is the environment's when set, and the file's otherwise |
| Config.OverrideReviewIdempotent | src/lib/config.ts:87-90 | applying the same environment twice changes nothing more |
| Config.OverrideReviewByNothing | src/lib/config.ts:87-90 | an empty environment leaves the file's review fields as they are |
| Config.MergeProviderConfigs | src/lib/config.ts:182-200 | undefined exactly when both inputs are; otherwise both provider keys exist |
| Config.MergeProviderKeys | src/lib/config.ts:182-200 | in a merged section both providers have an entry, and each of its four fields (apiKey, model, baseUrl, organization) is the environment's when set and the file's otherwise, an absent entry read as an empty one |
| Config.MergeProviderKeysByNothing | src/lib/config.ts:182-200 | an environment with no provider entries leaves every provider entry as the file has it |
| Config.MergeProviderKeysIdempotent | src/lib/config.ts:182-200 | merging the same environment entries twice is merging them once |
| Config.WithOverrides | src/lib/config.ts:85-92 | the result always has review and providers sections, and other sections are kept |
| Config.ApplyEnvironmentOverrides | src/lib/config.ts:81-93 | the file's configuration with the environment's review fields and providers merged over it |
| Config.ResolveReviewDefaults | src/lib/config.ts:210-219 | exactly the review fields, all undefined without a review section |
| Config.FirstDecisive | src/lib/config.ts:34-44 | the first source that is found or fails; every earlier one is absent |
| Config.Outcomes | src/lib/config.ts:28-41 | the sources in order: kodus.config.json, .yaml, .yml, then package.json |
| Config.LoadConfig | src/lib/config.ts:27-47 | the first source found, or `{}` when none is, with the environment applied; a read error other than absence is the result |
| Prompt.TranslateStatus | src/lib/prompt.ts:68-85 | "Outro" exactly for a status other than A, M, D, R, C, U |
| Prompt.TranslateStatusInjective | src/lib/prompt.ts:68-85 | the six known statuses have six different words |
| Prompt.LanguageOf | src/lib/prompt.ts:89-129 | the fence language is empty exactly for an unlisted extension |
| Prompt.DetectLanguage | src/lib/prompt.ts:87-130 | the language is looked up by the lower-cased extension, and is empty exactly when it is not listed |
| Prompt.ChangeLine | src/lib/prompt.ts:31-34 | each summary line starts with "- ", the translated status and ": ", and the path, or "undefined" without one, is exactly the rest |
| Prompt.ChangeSummaryLines | src/lib/prompt.ts:30-35 | the summary holds one line per change, in order |
| Prompt.ContextHeader | src/lib/prompt.ts:39 | the header starts with the reason's label |
| Prompt.ContextBlockLabel | src/lib/prompt.ts:39 | a block starts with "Arquivo principal" exactly for a changed file, and with "Import relativo" exactly for a dependency |
| Prompt.NoteOnlyBlock | src/lib/prompt.ts:40-42 | a file with a note and no content is its header, "\nNota: " and the note, with no fence |
| Prompt.TruncationNoteIff | src/lib/prompt.ts:43-46 | a fenced block carries the truncation note exactly when the file was truncated |
| Prompt.FencedContent | src/lib/prompt.ts:46 | the fenced content is set off from the header and note by a blank line |
| Prompt.FencedContentFramed | src/lib/prompt.ts:43-46 | the block opens with the fence tagged with the language, closes with a fence on its own line, and holds exactly the file's content between them |
| Prompt.ContextBlocks | src/lib/prompt.ts:37-47 | one block per context file, in order |
| Prompt.SummarySection | src/lib/prompt.ts:58 | the summary is its placeholder exactly when there are no changes |
| Prompt.ContextSection | src/lib/prompt.ts:60 | the context is its placeholder exactly when there are no files |
| Prompt.DiffBlockIff | src/lib/prompt.ts:50-52 | the diff section is the "empty diff" sentence exactly when the diff is only whitespace |
| Prompt.DiffBlockFencesTrimmedDiff | src/lib/prompt.ts:52 | otherwise it is the trimmed diff inside a `diff` fence |
| Prompt.MetadataLines | src/lib/prompt.ts:23-28 | the four metadata lines in order; a missing branch reads "desconhecida" and a missing head "desconhecido" |
| Prompt.PromptLayout | src/lib/prompt.ts:54-65 | the prompt is the eight sections in order, separated by blank lines |
| Prompt.JoinOfEight | src/lib/prompt.ts:65 | joining eight sections puts the separator between each pair |
| Providers.EnsureTrailingSlash | src/lib/providers.ts:127-129 | the result ends in "/" and extends the input by at most that slash |
| Providers.EnsureTrailingSlashIdempotent | src/lib/providers.ts:127-129 | applying it twice is applying it once |
| Providers.EnsureTrailingSlashKeepsSlashed | src/lib/providers.ts:127-129 | a value already ending in "/" is unchanged |
| Providers.StripLeadingSlash | src/lib/providers.ts:123 | exactly one leading "/" is removed, if there is one |
| Providers.StripLeadingSlashOnce | src/lib/providers.ts:123 | a second leading slash survives |
| Providers.BuildEndpoint | src/lib/providers.ts:118-125 | an absolute http(s) review path, in any case, is used verbatim; otherwise it is resolved, without its leading slash, against the base URL with a trailing slash, and that resolution may fail |
| Providers.TokenFor | src/lib/providers.ts:45 | the token comes from `api.token`, then `KODUS_API_TOKEN`, then `KODUS_TOKEN` |
| Providers.NormalizePreferences | src/lib/providers.ts:131-145 | preferences are kept exactly when there are some with at least one defined field |
| Providers.RequestBodyFor | src/lib/providers.ts:95-116 | the body has the provider, the diff and the metadata; it has preferences exactly when they have entries; no prompt and no context files are sent |
| Providers.BuildRequestBody | src/lib/providers.ts:95-116 | building the body and then setting the preferences gives `RequestBodyFor` |
| Providers.NormalizedPreferencesAreSent | src/lib/providers.ts:52-55 | normalised preferences are sent as they are |
| Providers.FirstMessageFrom | src/lib/providers.ts:154-159 | the first of the message fields that holds a non-blank string |
| Providers.ExtractMessage | src/lib/providers.ts:147-162 | no message for a non-object; otherwise the first non-blank string field in the order review, result, message, summary, content |
| Providers.ExtractedMessageIsNotBlank | src/lib/providers.ts:156 | a message found is never blank |
| Providers.ReviewFieldFirst | src/lib/providers.ts:153-158 | a non-blank `review` field wins over every other field |
| Providers.BlankReviewFieldSkipped | src/lib/providers.ts:153-158 | a blank `review` field gives way to a non-blank `result` |
| Providers.StatusErrorShowsStatus | src/lib/providers.ts:69-72 | the error names the status and the body, or "<sem corpo>" for an empty body |
| Providers.ClassifyResponse | src/lib/providers.ts:57-92 | a failed exchange and a non-2xx status are errors; a 2xx answer is ok with its status and request id, and has no data for an empty body, the raw text as data and message when it is not JSON, and the parsed data with its extracted message otherwise |
| Providers.SendOutcome | src/lib/providers.ts:40-50 | an endpoint that cannot be built fails the send first, whatever the token; then, without a token, the send fails before any request; otherwise the request is made and its answer classified |
| Providers.SendSucceedsOnlyWithToken | src/lib/providers.ts:40-72 | a successful send had a valid endpoint and a token, and received a 2xx answer |
| Providers.SendReview | src/lib/providers.ts:39-93 | the steps of `sendReview` give `SendOutcome` |
| Review.NormalizeProvider | src/commands/review.ts:174-183 | no name or an empty one means claude; otherwise the trimmed, lower-cased name must be a provider, else the error quotes the name as given |
| Review.NormalizeProviderRoundTrip | src/commands/review.ts:174-183 | each provider is accepted under its own name |
| Review.ParseIntegerOption | src/commands/review.ts:185-200 | an absent option gives the fallback unchecked; a given one is accepted exactly when `parseInt` gives at least `min`, else the error names the flag and the value |
| Review.ParseIntegerOptionOfDecimal | src/commands/review.ts:194-199 | a decimal number is accepted exactly when it reaches `min`, and is read back unchanged |
| Review.IntegerOptionAgreesWithEnvironment | src/commands/review.ts:194-195 | a non-empty option is accepted exactly when the same text in the environment would be, with the same value |
| Review.ResolveMaxFiles | src/commands/review.ts:33-38 | `--max-files` defaults to the configured value or 15, and a given value is at least 1 |
| Review.ResolveFollowDepth | src/commands/review.ts:39-44 | `--follow-depth` defaults to the configured value or 1, and a given value is at least 0 |
| Review.BuiltInLimits | src/commands/review.ts:33-44 | with nothing configured the limits are 15 files and depth 1 |
| Review.ResolveSendFlag | src/commands/review.ts:202-220 | a bare flag passes through; a value in {true,1,yes,y} is true and one in {false,0,no,n} false after trimming and lower-casing; any other value is an error; without the option the default, else false |
| Review.SendWordsDisjoint | src/commands/review.ts:211-216 | no word means both yes and no |
| Review.SendFlagAgreesWithEnvironment | src/commands/review.ts:209-216 | every value the environment accepts for `send` means the same on the command line |
| Review.ExtractResponseText | src/commands/review.ts:222-241 | no result gives nothing; a non-blank message wins; then no data or null gives nothing, a string is shown as is, and any other value is rendered as JSON |
| Review.ReviewFieldIsShown | src/commands/review.ts:147-148 | a 2xx JSON answer with a non-blank `review` field shows that field |
| Review.PlainAnswerIsShown | src/commands/review.ts:147-148 | a 2xx answer that is not JSON shows its text |
| Review.FirstExistingRef | src/commands/review.ts:272-276 | the first fallback ref that exists; none before it does |
| Review.BaseRefFor | src/commands/review.ts:243-281 | an explicit base is trimmed and must exist; else an existing upstream; else the first existing of origin/main, origin/master, main, master; else an error; a chosen base always exists |
| Review.OriginMainPreferred | src/commands/review.ts:270-276 | with no option and no upstream, origin/main wins whenever it exists |
| Review.ResolveBaseRef | src/commands/review.ts:243-281 | the early returns and the loop give `BaseRefFor` |
| Review.NamedPaths | src/commands/review.ts:71 | the paths of the changes, without missing or empty ones |
| Review.ChangedPaths | src/commands/review.ts:70-72 | the changed paths are distinct and non-empty |
| Review.ChangedPathsMembers | src/commands/review.ts:70-72 | a path is a changed path exactly when some change carries it and it is not empty |
| Review.NoPathNoReview | src/commands/review.ts:74-77 | changes that name no path leave nothing to review |
| Review.ResolveSettings | src/commands/review.ts:32-47 | the options are checked in order: provider, max-files, follow-depth, send, then base ref; the first invalid one is the error |
| Review.ResolveOptions | src/commands/review.ts:32-47 | the sequence of checks gives `ResolveSettings` |
| Review.SettingsInRange | src/commands/review.ts:32-47 | resolved settings name an existing base, and options given on the command line are in range |
| Review.GitOutputs | src/commands/review.ts:57-64 | the diff, then the name-status output; either failure is wrapped in one message naming the base |
| Review.FailedSend | src/commands/review.ts:155-162 | a failed send is recorded as not ok, status 0, with the error's message |
| Review.Recorded | src/commands/review.ts:136-164 | the provider response is the send result, or the recorded failure |
| Review.RecordedOkIffSent | src/commands/review.ts:136-164 | the recorded response is ok exactly when the send succeeded |
| Review.AssemblePayload | src/commands/review.ts:79-165 | only reading the context can fail, exactly when `Collect` fails; the payload carries the settings, git's outputs, the context files and skipped paths of `Collect` for the changed paths under the settings' depth and cap (which satisfy `Collected`), the prompt built from them, the statistics and, when a send was asked for, its recorded outcome |
| Review.RunReview | src/commands/review.ts:27-172 | a failed `loadConfig` ends the run first, then option errors, in order, then git errors; no changed path ends the run with no payload; with changed paths the run fails exactly when `Collect` fails; a payload's context is that of `Collect` for the changed paths and satisfies `Collected`; a failed send never makes the run fail |

## Left out

- Running git, reading and writing files, the clipboard, the console and the clock. The
  model takes their results as inputs. `resolveGitRoot`, `getCurrentBranch` and
  `getHeadSha` become the `root`, `branch` and `headSha` parameters. `refExists` becomes
  the set `refs`. The upstream query becomes an optional string.
- The `--output` file and `resolveOutputPath` (src/commands/review.ts:167-171, 292-297),
  and the clipboard switch `open` with `copyToClipboard` (src/commands/review.ts:46, 121-130, 299-322).
  They only produce effects.
- The regular expressions that find import specifiers (src/lib/context.ts:144-153). They
  are the `scan` parameter; everything after the scan is modelled.
- UTF-8 decoding. It is the `decode` parameter.
- Context.SafelyReadTextFile: truncates to 204800 decoded characters, where the code's
  `slice` (src/lib/context.ts:123) counts UTF-16 code units. A character outside the Basic
  Multilingual Plane counts once here and twice in the code, so the model keeps more text
  from a file holding such characters, and never splits a surrogate pair as the code can.
- Read errors other than a missing file or a directory (permissions, `ENOTDIR`). These
  would also abort the walk, like the directory read does.
- `new URL(relative, base)` (src/lib/providers.ts:124). It is the `resolveUrl` parameter,
  which returns the resolved URL or the error the constructor would throw.
- `JSON.parse`, YAML parsing and `JSON.stringify`. They are the `parse`, `readConfigFile`
  and `stringify` parameters. The `String(data)` fallback for a value `JSON.stringify`
  cannot render (src/commands/review.ts:238-240) is not modelled.
- Configuration values of the wrong JSON type are not modelled: a number where a string is
  expected, `null`, or a provider name outside the two. Each field holds a value of its
  declared type or is absent. For the same reason `normalizePreferences` only sees
  provider entries or their absence, never a non-object, and the key order of the entries
  it copies is not represented.
- `Number.parseInt` is modelled on integers: decimal digits with an optional sign after
  leading whitespace. Results too large for a double are not rounded.
- Strings.Lower: maps the ASCII capitals and the Kelvin sign only. That is exact for
  every use here, because each one compares the lower-cased text with an ASCII word.
  Other Unicode case mappings are not modelled.
- Windows path separators: `path` is modelled as POSIX. Backslashes in specifiers are
  still turned into slashes, as the code does.
- Async scheduling: every `await` is modelled as a sequential step.
- `readFileAtRevision` and `resolveAbsolutePath` (src/lib/git.ts:74-85). The command does
  not use them.
- Providers.ExtractMessage: tests each field with "not all whitespace" instead of
  `trim().length > 0`. `Strings.TrimEmptyIffBlank` proves the two tests equal, and
  `Providers.ExtractedMessageIsNotBlank` restates the result in the source's terms.
- Prompt.ContextHeader: states only that the header starts with the reason's label. The
  path and depth that follow are given by its definition, not by a separate property.
