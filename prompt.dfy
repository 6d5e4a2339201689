/**
 * The review prompt of src/lib/prompt.ts: eight sections separated by blank lines
 * (header, metadata, change summary, context files, diff), all in Portuguese.
 */
module Prompt {
  import opened Wrappers
  import opened Strings
  import Paths
  import Context
  import Git
  import Config

  datatype BuildPromptArgs = BuildPromptArgs(
    provider: Config.Provider,
    baseRef: string,
    branch: Option<string>,
    headSha: Option<string>,
    diff: string,
    files: seq<Context.ContextFile>,
    changes: seq<Git.FileChange>)

  const HeaderLines: seq<string> := [
    "Voce e um revisor de codigo focado em detectar bugs, riscos e oportunidades de melhoria.",
    "Analise o diff e aponte apenas os problemas mais relevantes em ordem de severidade."
  ]
  const SectionSeparator: string := "\n\n"
  const SummaryTitle: string := "Resumo das alteracoes:"
  const NoChangesText: string := "- Nenhum arquivo modificado detectado."
  const ContextTitle: string := "Contexto relevante:"
  const NoContextText: string := "Nenhum arquivo de contexto coletado."
  const DiffTitle: string := "Diff completo:"
  const EmptyDiffText: string := "Diff vazio: nenhuma alteracao textual encontrada."
  const NoteLead: string := "\nNota: "
  const TruncatedNote: string := NoteLead + "conteudo truncado para caber no limite."
  const Fence: string := "```"

  /** The git status letters the prompt names. */
  const KnownStatuses: set<string> := {"A", "M", "D", "R", "C", "U"}

  /** `translateStatus`: the Portuguese word for a status letter, "Outro" for any other status. */
  function TranslateStatus(status: string): (word: string)
    ensures word == "Outro" <==> status !in KnownStatuses
    ensures word != []
  {
    if status == "A" then "Adicionado"
    else if status == "M" then "Modificado"
    else if status == "D" then "Removido"
    else if status == "R" then "Renomeado"
    else if status == "C" then "Copiado"
    else if status == "U" then "Conflito"
    else "Outro"
  }

  /** Different known statuses get different words, so the word tells the status back. */
  lemma TranslateStatusInjective(a: string, b: string)
    requires a in KnownStatuses && b in KnownStatuses && a != b
    ensures TranslateStatus(a) != TranslateStatus(b)
  {
  }

  /** The fence languages, keyed by lower-case extension. */
  const LanguageExtensions: set<string> := {
    ".ts", ".tsx", ".js", ".jsx", ".mjs", ".cjs", ".json", ".py", ".rb", ".go", ".rs", ".java",
    ".kt", ".kts", ".swift", ".php", ".css", ".scss", ".sass", ".yml", ".yaml", ".md"
  }

  function LanguageOf(extension: string): (language: string)
    ensures language == "" <==> extension !in LanguageExtensions
  {
    if extension == ".ts" || extension == ".tsx" then "ts"
    else if extension == ".js" || extension == ".jsx" || extension == ".mjs" || extension == ".cjs" then "javascript"
    else if extension == ".json" then "json"
    else if extension == ".py" then "python"
    else if extension == ".rb" then "ruby"
    else if extension == ".go" then "go"
    else if extension == ".rs" then "rust"
    else if extension == ".java" then "java"
    else if extension == ".kt" || extension == ".kts" then "kotlin"
    else if extension == ".swift" then "swift"
    else if extension == ".php" then "php"
    else if extension == ".css" then "css"
    else if extension == ".scss" || extension == ".sass" then "scss"
    else if extension == ".yml" || extension == ".yaml" then "yaml"
    else if extension == ".md" then "markdown"
    else ""
  }

  /** `detectLanguage`: the fence language of a path's extension, ignoring case; "" when unknown. */
  function DetectLanguage(path: string): (language: string)
    ensures language == "" <==> Lower(Paths.Extname(path)) !in LanguageExtensions
  {
    LanguageOf(Lower(Paths.Extname(path)))
  }

  /** `${change.path}`: an absent path prints as "undefined". */
  function PathText(path: Option<string>): string {
    if path.Some? then path.value else "undefined"
  }

  /** `- <status word>: <path>`: the translated status after a dash, then the path after a colon. */
  function ChangeLine(change: Git.FileChange): (line: string)
    ensures |line| > 2 && line[..2] == "- "
    ensures line[2] == TranslateStatus(change.status)[0]
    ensures StartsWith(line, "- " + TranslateStatus(change.status) + ": ") && EndsWith(line, PathText(change.path))
    ensures line[|TranslateStatus(change.status)| + 4..] == PathText(change.path)
  {
    var lead := "- " + TranslateStatus(change.status) + ": ";
    Framed(lead, PathText(change.path), "");
    assert lead + PathText(change.path) + "" == lead + PathText(change.path);
    lead + PathText(change.path)
  }

  function ChangeLines(changes: seq<Git.FileChange>): (lines: seq<string>)
    ensures |lines| == |changes|
    ensures forall i :: 0 <= i < |changes| ==> lines[i] == ChangeLine(changes[i])
  {
    seq(|changes|, i requires 0 <= i < |changes| => ChangeLine(changes[i]))
  }

  /** One line per change, in order, separated by newlines. */
  function ChangeSummary(changes: seq<Git.FileChange>): string {
    Join(ChangeLines(changes), "\n")
  }

  /** A summary line holds a newline only when the path it prints does. */
  lemma ChangeLineHasNoNewline(change: Git.FileChange)
    requires '\n' !in PathText(change.path)
    ensures '\n' !in ChangeLine(change)
  {
    var word := TranslateStatus(change.status);
    assert '\n' !in word;
    var line := ChangeLine(change);
    assert line == "- " + word + ": " + PathText(change.path);
  }

  /** Reading the summary back line by line gives one line per change. */
  lemma ChangeSummaryLines(changes: seq<Git.FileChange>)
    requires |changes| > 0
    requires forall i :: 0 <= i < |changes| ==> '\n' !in PathText(changes[i].path)
    ensures Split(ChangeSummary(changes), '\n') == ChangeLines(changes)
  {
    var lines := ChangeLines(changes);
    forall k | 0 <= k < |lines| ensures '\n' !in lines[k] {
      ChangeLineHasNoNewline(changes[k]);
    }
    SplitJoin(lines, '\n');
  }

  function ReasonLabel(reason: Context.Reason): string {
    if reason == Context.Changed then "Arquivo principal" else "Import relativo"
  }

  function ContextHeader(file: Context.ContextFile): (header: string)
    ensures StartsWith(header, ReasonLabel(file.reason))
  {
    ReasonLabel(file.reason) + ": " + file.path + " (profundidade " + NatToDecimal(file.depth) + ")"
  }

  /** `file.note && !file.content`: a non-empty note and no content to show. */
  predicate IsNoteOnly(file: Context.ContextFile) {
    file.note.Some? && file.note.value != "" && (file.content.None? || file.content.value == "")
  }

  /**
   * One context file: its header, then either its note alone, or the truncation note
   * when the content was cut, and the content in a code fence tagged with its language.
   */
  function ContextBlock(file: Context.ContextFile): (block: string)
    ensures StartsWith(block, ContextHeader(file))
  {
    ContextHeader(file) + BlockBody(file)
  }

  /** What follows the header of a context block. */
  function BlockBody(file: Context.ContextFile): string {
    if IsNoteOnly(file) then
      NoteLead + file.note.value
    else
      (if file.truncated then TruncatedNote else "") + FencedContent(DetectLanguage(file.path), file.content.GetOr(""))
  }

  /** The content in a code fence tagged with the file's language, after a blank line. */
  function FencedContent(language: string, content: string): (fenced: string)
    ensures |fenced| >= 2 && fenced[1] == '\n'
  {
    "\n\n" + Fence + language + "\n" + content + "\n" + Fence
  }

  /**
   * A fenced block opens with a blank line and the fence tagged with the language,
   * closes with the fence on its own line, and holds exactly the content between.
   */
  lemma FencedContentFramed(language: string, content: string)
    ensures var fenced := FencedContent(language, content);
      var opening := "\n\n" + Fence + language + "\n";
      var closing := "\n" + Fence;
      && StartsWith(fenced, opening) && EndsWith(fenced, closing)
      && fenced[|opening|..|fenced| - |closing|] == content
  {
    var opening := "\n\n" + Fence + language + "\n";
    var closing := "\n" + Fence;
    Framed(opening, content, closing);
    assert FencedContent(language, content) == opening + content + closing;
  }

  /** The block of a file the walk started from opens with "Arquivo principal", any other with "Import relativo". */
  lemma ContextBlockLabel(file: Context.ContextFile)
    ensures StartsWith(ContextBlock(file), "Arquivo principal") <==> file.reason == Context.Changed
    ensures StartsWith(ContextBlock(file), "Import relativo") <==> file.reason == Context.Dependency
  {
    var block := ContextBlock(file);
    var tag := ReasonLabel(file.reason);
    StartsWithTransitive(block, ContextHeader(file), tag);
    assert block[0] == tag[0];
    if file.reason == Context.Changed {
      assert block[0] != "Import relativo"[0];
    } else {
      assert block[0] != "Arquivo principal"[0];
    }
  }

  lemma StartsWithTransitive(s: string, prefix: string, shorter: string)
    requires StartsWith(s, prefix) && StartsWith(prefix, shorter)
    ensures StartsWith(s, shorter)
  {
    assert forall i :: 0 <= i < |shorter| ==> s[i] == prefix[i];
  }

  /** The truncation note follows the header exactly when the content was truncated. */
  lemma TruncationNoteIff(file: Context.ContextFile)
    requires !IsNoteOnly(file)
    ensures StartsWith(BlockBody(file), TruncatedNote) <==> file.truncated
  {
    if file.truncated {
      PrefixOfConcat(TruncatedNote, FencedContent(DetectLanguage(file.path), file.content.GetOr("")));
    } else {
      assert TruncatedNote[1] == NoteLead[1] == 'N';
    }
  }

  lemma PrefixOfConcat(a: string, b: string)
    ensures StartsWith(a + b, a)
  {
  }

  /** A file shown by its note alone has the note right after its header. */
  lemma NoteOnlyBlock(file: Context.ContextFile)
    requires IsNoteOnly(file)
    ensures ContextBlock(file) == ContextHeader(file) + NoteLead + file.note.value
  {
  }

  function ContextBlocks(files: seq<Context.ContextFile>): (blocks: seq<string>)
    ensures |blocks| == |files|
    ensures forall i :: 0 <= i < |files| ==> blocks[i] == ContextBlock(files[i])
  {
    seq(|files|, i requires 0 <= i < |files| => ContextBlock(files[i]))
  }

  function ContextSections(files: seq<Context.ContextFile>): string {
    Join(ContextBlocks(files), SectionSeparator)
  }

  /** `text || fallback`. */
  function OrDefault(text: string, fallback: string): string {
    if text == "" then fallback else text
  }

  /** The summary section is the placeholder exactly when there are no changes. */
  lemma SummarySection(changes: seq<Git.FileChange>)
    ensures changes == [] ==> OrDefault(ChangeSummary(changes), NoChangesText) == NoChangesText
    ensures changes != [] ==> OrDefault(ChangeSummary(changes), NoChangesText) == ChangeSummary(changes) != NoChangesText
  {
    if changes != [] {
      var lines := ChangeLines(changes);
      JoinStartsWithFirst(lines, "\n");
      var summary := ChangeSummary(changes);
      assert summary[2] == lines[0][2] == TranslateStatus(changes[0].status)[0];
      assert summary[2] != NoChangesText[2];
    }
  }

  /** The context section is the placeholder exactly when no file was collected. */
  lemma ContextSection(files: seq<Context.ContextFile>)
    ensures files == [] ==> OrDefault(ContextSections(files), NoContextText) == NoContextText
    ensures files != [] ==> OrDefault(ContextSections(files), NoContextText) == ContextSections(files) != NoContextText
  {
    if files != [] {
      var blocks := ContextBlocks(files);
      JoinStartsWithFirst(blocks, SectionSeparator);
      var sections := ContextSections(files);
      var tag := ReasonLabel(files[0].reason);
      assert ContextHeader(files[0])[0] == tag[0];
      assert sections[0] == blocks[0][0] == tag[0];
      assert sections[0] != NoContextText[0];
    }
  }

  /** The diff, trimmed, in a `diff` fence; a sentence instead when it is blank. */
  function DiffBlock(diff: string): string {
    var trimmed := Trim(diff);
    if |trimmed| == 0 then EmptyDiffText else FencedDiff(trimmed)
  }

  function FencedDiff(trimmed: string): (block: string)
    ensures block != EmptyDiffText
  {
    var block := Fence + "diff\n" + trimmed + "\n" + Fence;
    assert |Fence| == 3 && Fence[2] == '`';
    assert block[|block| - 1] == Fence[2];
    assert EmptyDiffText[|EmptyDiffText| - 1] == '.';
    block
  }

  /** The diff section is the "empty diff" sentence exactly when the diff is only whitespace. */
  lemma DiffBlockIff(diff: string)
    ensures DiffBlock(diff) == EmptyDiffText <==> AllWhitespace(diff)
  {
    TrimEmptyIffBlank(diff);
  }

  /** A diff with any visible character is shown trimmed, between a `diff` fence and a closing fence. */
  lemma DiffBlockFencesTrimmedDiff(diff: string)
    requires !AllWhitespace(diff)
    ensures var block, opening := DiffBlock(diff), Fence + "diff\n";
      && StartsWith(block, opening)
      && EndsWith(block, "\n" + Fence)
      && block[|opening|..|block| - 1 - |Fence|] == Trim(diff)
  {
    TrimEmptyIffBlank(diff);
    var trimmed, opening, closing := Trim(diff), Fence + "diff\n", "\n" + Fence;
    assert DiffBlock(diff) == opening + trimmed + closing by {
      ConcatAssoc(opening + trimmed, "\n", Fence);
    }
    Framed(opening, trimmed, closing);
  }

  /** The metadata lines, in order; a missing branch or head commit is shown as unknown. */
  lemma MetadataLines(args: BuildPromptArgs)
    requires '\n' !in args.baseRef
    requires args.branch.Some? ==> '\n' !in args.branch.value
    requires args.headSha.Some? ==> '\n' !in args.headSha.value
    ensures Split(Metadata(args), '\n') == [
      "Branch atual: " + (if args.branch.Some? then args.branch.value else "desconhecida"),
      "Base utilizada: " + args.baseRef,
      "Head SHA: " + (if args.headSha.Some? then args.headSha.value else "desconhecido"),
      "Provider alvo: " + Config.ProviderName(args.provider)]
  {
    var lines := [
      "Branch atual: " + args.branch.GetOr("desconhecida"),
      "Base utilizada: " + args.baseRef,
      "Head SHA: " + args.headSha.GetOr("desconhecido"),
      "Provider alvo: " + Config.ProviderName(args.provider)];
    assert '\n' !in lines[0] && '\n' !in lines[1] && '\n' !in lines[2] && '\n' !in lines[3];
    SplitJoin(lines, '\n');
    assert Metadata(args) == Join(lines, "\n");
  }

  function Metadata(args: BuildPromptArgs): string {
    Join([
      "Branch atual: " + args.branch.GetOr("desconhecida"),
      "Base utilizada: " + args.baseRef,
      "Head SHA: " + args.headSha.GetOr("desconhecido"),
      "Provider alvo: " + Config.ProviderName(args.provider)
    ], "\n")
  }

  function Sections(args: BuildPromptArgs): (sections: seq<string>)
    ensures |sections| == 8
  {
    [
      Join(HeaderLines, " "),
      Metadata(args),
      SummaryTitle,
      OrDefault(ChangeSummary(args.changes), NoChangesText),
      ContextTitle,
      OrDefault(ContextSections(args.files), NoContextText),
      DiffTitle,
      DiffBlock(args.diff)
    ]
  }

  /** `buildPrompt`: the eight sections separated by blank lines. */
  function BuildPrompt(args: BuildPromptArgs): string {
    Join(Sections(args), SectionSeparator)
  }

  /** The prompt, spelled out: header, metadata, summary, context and diff, in this order. */
  lemma PromptLayout(args: BuildPromptArgs)
    ensures BuildPrompt(args)
      == Join(HeaderLines, " ") + SectionSeparator
      + Metadata(args) + SectionSeparator
      + SummaryTitle + SectionSeparator
      + OrDefault(ChangeSummary(args.changes), NoChangesText) + SectionSeparator
      + ContextTitle + SectionSeparator
      + OrDefault(ContextSections(args.files), NoContextText) + SectionSeparator
      + DiffTitle + SectionSeparator
      + DiffBlock(args.diff)
  {
    var s := Sections(args);
    JoinOfEight(s[0], s[1], s[2], s[3], s[4], s[5], s[6], s[7], SectionSeparator);
    assert s == [s[0], s[1], s[2], s[3], s[4], s[5], s[6], s[7]];
  }

  lemma JoinOfEight(a: string, b: string, c: string, d: string, e: string, f: string, g: string, h: string, sep: string)
    ensures Join([a, b, c, d, e, f, g, h], sep) == a + sep + b + sep + c + sep + d + sep + e + sep + f + sep + g + sep + h
  {
    var s := [a, b, c, d, e, f, g, h];
    JoinSnoc(s, sep);
    JoinSnoc(s[..7], sep);
    JoinSnoc(s[..6], sep);
    JoinSnoc(s[..5], sep);
    JoinSnoc(s[..4], sep);
    JoinSnoc(s[..3], sep);
    JoinSnoc(s[..2], sep);
    assert s[..8] == s;
    assert s[..7][..6] == s[..6];
    assert s[..6][..5] == s[..5];
    assert s[..5][..4] == s[..4];
    assert s[..4][..3] == s[..3];
    assert s[..3][..2] == s[..2];
    assert s[..2][..1] == [a];
  }
}
