/**
 * The context collector of src/lib/context.ts: a breadth-first walk over the graph
 * of relative imports, starting from the changed files, bounded by a maximum number
 * of emitted files and by a maximum import depth, reading and classifying each file.
 *
 * The working tree is a `FileSystem` value; the regular-expression scan for import
 * specifiers is the parameter `scan` (every match of the four patterns, pattern by
 * pattern, in text order); UTF-8 decoding is the parameter `decode`.
 */
module Context {
  import opened Wrappers
  import opened Strings
  import opened Paths

  /** Extensions whose files are scanned for imports. */
  const TextExtensions: set<string> := {".ts", ".tsx", ".js", ".jsx", ".mjs", ".cjs", ".json"}

  /** Extensions tried, in this order, when resolving an import specifier. */
  const ImportableExtensions: seq<string> := [".ts", ".tsx", ".js", ".jsx", ".mjs", ".cjs", ".json"]

  /** Index files tried, in this order, inside a directory an import names. */
  const IndexFiles: seq<string> :=
    ["index.ts", "index.tsx", "index.js", "index.jsx", "index.mjs", "index.cjs", "index.json"]

  /** Files longer than this many bytes are truncated. */
  const MaxFileBytes: nat := 200 * 1024

  const MissingNote: string := "Arquivo inexistente no working tree"
  const BinaryNote: string := "Conteudo binario omitido"
  const OutsideRootSuffix: string := " (fora do repositorio)"

  /** The error `fs.readFile` raises on a directory; the collector does not catch it. */
  const DirectoryReadError: string := "EISDIR: illegal operation on a directory, read"

  datatype Reason = Changed | Dependency

  datatype ContextFile = ContextFile(
    path: string,
    depth: nat,
    reason: Reason,
    truncated: bool,
    content: Option<string>,
    note: Option<string>)

  datatype QueueEntry = QueueEntry(path: string, depth: nat, reason: Reason)

  datatype CollectResult = CollectResult(files: seq<ContextFile>, visited: set<string>, skipped: seq<string>)

  datatype ReadResult = Missing | Binary | Text(content: string, truncated: bool)

  /** Backslashes become forward slashes. */
  function NormalizeRelativePath(path: string): (r: string)
    ensures |r| == |path| && '\\' !in r
    ensures '\\' !in path ==> r == path
  {
    ReplaceBackslashes(path)
  }

  /** `content.slice(0, n)`. */
  function Take(s: string, n: nat): (r: string)
    ensures |r| == (if |s| <= n then |s| else n) && r == s[..|r|]
  {
    if |s| <= n then s else s[..n]
  }

  /**
   * Reading one file: absent gives `Missing`; bytes holding a zero give `Binary`;
   * otherwise the decoded text, cut to its first `MaxFileBytes` characters and
   * flagged as truncated exactly when the file has more than `MaxFileBytes` bytes.
   * Reading a directory fails.
   */
  function SafelyReadTextFile(fs: FileSystem, p: Path, decode: seq<bv8> -> string): (r: Result<ReadResult>)
    ensures r.Err? <==> StatOf(fs, p) == Directory
    ensures r == Ok(Missing) <==> StatOf(fs, p) == Absent
    ensures r == Ok(Binary) <==> StatOf(fs, p) == RegularFile && 0 in fs.files[p]
    ensures r.Ok? && r.value.Text? <==> StatOf(fs, p) == RegularFile && 0 !in fs.files[p]
    ensures r.Ok? && r.value.Text? ==>
      && r.value.truncated == (|fs.files[p]| > MaxFileBytes)
      && r.value.content == (if r.value.truncated then Take(decode(fs.files[p]), MaxFileBytes) else decode(fs.files[p]))
  {
    match StatOf(fs, p)
    case Directory => Err(DirectoryReadError)
    case Absent => Ok(Missing)
    case RegularFile =>
      var data := fs.files[p];
      if 0 in data then Ok(Binary)
      else
        var content := decode(data);
        if |data| > MaxFileBytes then Ok(Text(Take(content, MaxFileBytes), true))
        else Ok(Text(content, false))
  }

  /** A text file is never truncated below its limit, and a truncated one is exactly at the limit or shorter. */
  lemma TruncatedContentBound(fs: FileSystem, p: Path, decode: seq<bv8> -> string)
    requires SafelyReadTextFile(fs, p, decode).Ok? && SafelyReadTextFile(fs, p, decode).value.Text?
    ensures var t := SafelyReadTextFile(fs, p, decode).value;
      t.truncated ==> |t.content| <= MaxFileBytes && StartsWith(decode(fs.files[p]), t.content)
  {
  }

  /** Whether the file's extension (case-sensitively) is one whose imports are followed. */
  predicate IsImportableFile(p: Path) {
    ExtnameOfBase(BaseOf(p)) in TextExtensions
  }

  predicate StartsWithDot(s: string) {
    StartsWith(s, ".")
  }

  /** The relative specifiers among the scanned matches: each once, in first-seen order. */
  function RelativeSpecifiers(found: seq<string>): (r: seq<string>)
    ensures Distinct(r)
    ensures forall i :: 0 <= i < |r| ==> StartsWithDot(r[i]) && r[i] in found
    ensures forall i :: 0 <= i < |found| && StartsWithDot(found[i]) ==> found[i] in r
  {
    Dedup(Filter(found, StartsWithDot))
  }

  /** `buildCandidatePaths`: the base itself, then the base with each extension appended. */
  function BuildCandidatePaths(base: Path): (r: seq<Path>)
    requires IsNormal(base)
    ensures |r| == 1 + |ImportableExtensions| && r[0] == base
    ensures forall k :: 0 <= k < |ImportableExtensions| ==> r[k + 1] == AppendExtension(base, ImportableExtensions[k])
    ensures forall k :: 0 <= k < |r| ==> IsNormal(r[k])
  {
    [base] + seq(|ImportableExtensions|, k requires 0 <= k < |ImportableExtensions| => AppendExtension(base, ImportableExtensions[k]))
  }

  /** The root-relative form of a path, with backslashes turned into slashes. */
  function RootRelative(root: Path, p: Path): (r: string)
    ensures '\\' !in r
  {
    NormalizeRelativePath(RelativeString(root, p))
  }

  /** Position of the first index file, from position `k` on, that exists inside `dir` (|IndexFiles| if none). */
  function FirstIndexFile(fs: FileSystem, dir: Path, k: nat): (j: nat)
    requires k <= |IndexFiles|
    ensures k <= j <= |IndexFiles|
    ensures j < |IndexFiles| ==> Exists(fs, dir + [IndexFiles[j]])
    ensures forall i :: k <= i < j ==> !Exists(fs, dir + [IndexFiles[i]])
    decreases |IndexFiles| - k
  {
    if k == |IndexFiles| || Exists(fs, dir + [IndexFiles[k]]) then k
    else FirstIndexFile(fs, dir, k + 1)
  }

  /** The first index file that exists inside `dir`, as a root-relative path. */
  function IndexLookup(fs: FileSystem, root: Path, dir: Path): Option<string> {
    var j := FirstIndexFile(fs, dir, 0);
    if j < |IndexFiles| then Some(RootRelative(root, dir + [IndexFiles[j]])) else None
  }

  /**
   * What one candidate yields: a directory yields its first existing index file (or
   * nothing), a file yields its root-relative path unless that path escapes the
   * root, and a path that does not exist yields nothing.
   */
  function CandidateResult(fs: FileSystem, root: Path, c: Path): Option<string> {
    match StatOf(fs, c)
    case Directory => IndexLookup(fs, root, c)
    case RegularFile => if EscapesRoot(root, c) then None else Some(RootRelative(root, c))
    case Absent => None
  }

  /** Position of the first candidate, from position `k` on, that yields a result (|candidates| if none). */
  function FirstResolving(fs: FileSystem, root: Path, candidates: seq<Path>, k: nat): (j: nat)
    requires k <= |candidates|
    ensures k <= j <= |candidates|
    ensures j < |candidates| ==> CandidateResult(fs, root, candidates[j]).Some?
    ensures forall i :: k <= i < j ==> CandidateResult(fs, root, candidates[i]).None?
    decreases |candidates| - k
  {
    if k == |candidates| || CandidateResult(fs, root, candidates[k]).Some? then k
    else FirstResolving(fs, root, candidates, k + 1)
  }

  /** The result of the first candidate that yields one. */
  function FirstResolution(fs: FileSystem, root: Path, candidates: seq<Path>): Option<string> {
    var j := FirstResolving(fs, root, candidates, 0);
    if j < |candidates| then CandidateResult(fs, root, candidates[j]) else None
  }

  /** `resolveImportPath`, as a value. */
  function ResolveImport(fs: FileSystem, root: Path, fromDirectory: Path, specifier: string): (r: Option<string>)
    requires IsNormal(fromDirectory)
    ensures r.Some? ==> '\\' !in r.value
  {
    FirstResolution(fs, root, BuildCandidatePaths(Resolve(fromDirectory, NormalizeRelativePath(specifier))))
  }

  /**
   * What `resolveImportPath` returns has no backslash, and a result that climbs out
   * of the root (starts with "..") can only come from a directory's index file:
   * a plain file outside the root is never accepted.
   */
  lemma ResolvedImportShape(fs: FileSystem, root: Path, fromDirectory: Path, specifier: string)
    requires IsNormal(fromDirectory)
    requires ResolveImport(fs, root, fromDirectory, specifier).Some?
    ensures var r := ResolveImport(fs, root, fromDirectory, specifier).value;
      && '\\' !in r
      && (StartsWith(r, "..") ==>
            exists c :: c in BuildCandidatePaths(Resolve(fromDirectory, NormalizeRelativePath(specifier)))
                        && StatOf(fs, c) == Directory)
  {
    var cs := BuildCandidatePaths(Resolve(fromDirectory, NormalizeRelativePath(specifier)));
    var j := FirstResolving(fs, root, cs, 0);
    var r := CandidateResult(fs, root, cs[j]).value;
    if StatOf(fs, cs[j]) == RegularFile {
      var s := RelativeString(root, cs[j]);
      assert !EscapesRoot(root, cs[j]);
      assert r == NormalizeRelativePath(s);
    }
  }

  /** `resolveImportPath`: try each candidate in order; a directory tries its index files. */
  method ResolveImportPath(fs: FileSystem, fromDirectory: Path, specifier: string, root: Path) returns (r: Option<string>)
    requires IsNormal(fromDirectory)
    ensures r == ResolveImport(fs, root, fromDirectory, specifier)
  {
    var normalizedSpecifier := NormalizeRelativePath(specifier);
    var resolvedBase := Resolve(fromDirectory, normalizedSpecifier);
    var candidates := BuildCandidatePaths(resolvedBase);
    var i := 0;
    while i < |candidates|
      invariant 0 <= i <= |candidates|
      invariant FirstResolving(fs, root, candidates, 0) == FirstResolving(fs, root, candidates, i)
    {
      var candidate := candidates[i];
      var stat := StatOf(fs, candidate);
      if stat == Directory {
        var j := 0;
        while j < |IndexFiles|
          invariant 0 <= j <= |IndexFiles|
          invariant FirstIndexFile(fs, candidate, 0) == FirstIndexFile(fs, candidate, j)
        {
          var nested := candidate + [IndexFiles[j]];
          if Exists(fs, nested) {
            return Some(RootRelative(root, nested));
          }
          j := j + 1;
        }
        i := i + 1;
        continue;
      }
      if stat == RegularFile {
        var rel := RelativeString(root, candidate);
        if !StartsWith(rel, "..") {
          return Some(NormalizeRelativePath(rel));
        }
      }
      i := i + 1;
    }
    return None;
  }

  /** The resolved imports of `specifiers`, unresolvable ones dropped, order kept. */
  function ResolveAll(fs: FileSystem, root: Path, fromDirectory: Path, specifiers: seq<string>): (r: seq<string>)
    requires IsNormal(fromDirectory)
    ensures |r| <= |specifiers|
    ensures forall i :: 0 <= i < |r| ==> '\\' !in r[i]
  {
    if specifiers == [] then []
    else
      var last := ResolveImport(fs, root, fromDirectory, specifiers[|specifiers| - 1]);
      ResolveAll(fs, root, fromDirectory, specifiers[..|specifiers| - 1]) + (if last.Some? then [last.value] else [])
  }

  /** The dependencies of a file with the given text: its relative imports, resolved. */
  function Dependencies(fs: FileSystem, root: Path, scan: string -> seq<string>, fromFile: Path, content: string): (r: seq<string>)
    requires IsNormal(fromFile)
    ensures forall i :: 0 <= i < |r| ==> '\\' !in r[i]
  {
    ResolveAll(fs, root, Dirname(fromFile), RelativeSpecifiers(scan(content)))
  }

  /** Every dependency is the resolution of one relative specifier found in the text. */
  lemma {:induction false} ResolveAllSound(fs: FileSystem, root: Path, fromDirectory: Path, specifiers: seq<string>, d: string)
    requires IsNormal(fromDirectory)
    requires d in ResolveAll(fs, root, fromDirectory, specifiers)
    ensures exists s :: s in specifiers && ResolveImport(fs, root, fromDirectory, s) == Some(d)
  {
    var last := specifiers[|specifiers| - 1];
    var init := specifiers[..|specifiers| - 1];
    if d in ResolveAll(fs, root, fromDirectory, init) {
      ResolveAllSound(fs, root, fromDirectory, init, d);
      var s :| s in init && ResolveImport(fs, root, fromDirectory, s) == Some(d);
      assert s in specifiers;
    } else {
      assert ResolveImport(fs, root, fromDirectory, last) == Some(d);
    }
  }

  /** One more scanned match extends the relative specifiers by at most that match. */
  lemma RelativeSpecifiersStep(found: seq<string>, i: nat)
    requires i < |found|
    ensures var d := RelativeSpecifiers(found[..i]);
      RelativeSpecifiers(found[..i + 1]) == if StartsWithDot(found[i]) && found[i] !in d then d + [found[i]] else d
  {
    var f := Filter(found[..i], StartsWithDot);
    assert found[..i + 1][..i] == found[..i];
    if StartsWithDot(found[i]) {
      var g := Filter(found[..i + 1], StartsWithDot);
      assert g == f + [found[i]];
      assert g[..|g| - 1] == f;
    }
  }

  /** One more specifier extends the resolved list by at most its resolution. */
  lemma ResolveAllStep(fs: FileSystem, root: Path, fromDirectory: Path, specifiers: seq<string>, i: nat)
    requires IsNormal(fromDirectory) && i < |specifiers|
    ensures var last := ResolveImport(fs, root, fromDirectory, specifiers[i]);
      ResolveAll(fs, root, fromDirectory, specifiers[..i + 1])
        == ResolveAll(fs, root, fromDirectory, specifiers[..i]) + (if last.Some? then [last.value] else [])
  {
    assert specifiers[..i + 1][..i] == specifiers[..i];
  }

  /** `extractRelativeDependencies`: collect the relative specifiers, then resolve each. */
  method ExtractRelativeDependencies(fs: FileSystem, root: Path, scan: string -> seq<string>, fromFile: Path, content: string)
    returns (resolved: seq<string>)
    requires IsNormal(fromFile)
    ensures resolved == Dependencies(fs, root, scan, fromFile, content)
  {
    var directory := Dirname(fromFile);
    var found := scan(content);
    var specifiers: seq<string> := [];
    for i := 0 to |found|
      invariant specifiers == RelativeSpecifiers(found[..i])
    {
      RelativeSpecifiersStep(found, i);
      var specifier := found[i];
      if StartsWithDot(specifier) && specifier !in specifiers {
        specifiers := specifiers + [specifier];
      }
    }
    assert found[..|found|] == found;
    resolved := [];
    for i := 0 to |specifiers|
      invariant resolved == ResolveAll(fs, root, directory, specifiers[..i])
    {
      ResolveAllStep(fs, root, directory, specifiers, i);
      var candidate := ResolveImportPath(fs, directory, specifiers[i], root);
      if candidate.Some? {
        resolved := resolved + [candidate.value];
      }
    }
    assert specifiers[..|specifiers|] == specifiers;
  }

  /*
   * The collector and its invariants.
   */

  datatype CollectContextOptions = CollectContextOptions(
    root: Path,
    changedFiles: seq<string>,
    followDepth: int,
    maxFiles: int)

  /** The depth and reason of a queued or emitted entry agree: only the changed files have depth 0. */
  predicate WellDepthed(depth: nat, reason: Reason, followDepth: int) {
    (reason == Changed <==> depth == 0) && (depth == 0 || depth <= followDepth)
  }

  /** The queue is sorted by depth and spans at most two consecutive depths. */
  predicate QueueOrdered(queue: seq<QueueEntry>) {
    && (forall i, j :: 0 <= i < j < |queue| ==> queue[i].depth <= queue[j].depth)
    && (forall i, j :: 0 <= i < |queue| && 0 <= j < |queue| ==> queue[j].depth <= queue[i].depth + 1)
  }

  predicate DepthSorted(files: seq<ContextFile>) {
    forall i, j :: 0 <= i < j < |files| ==> files[i].depth <= files[j].depth
  }

  predicate FilesBeforeQueue(files: seq<ContextFile>, queue: seq<QueueEntry>) {
    forall i, j :: 0 <= i < |files| && 0 <= j < |queue| ==> files[i].depth <= queue[j].depth
  }

  predicate DistinctPaths(files: seq<ContextFile>) {
    forall i, j :: 0 <= i < j < |files| ==> files[i].path != files[j].path
  }

  /**
   * An emitted entry is a normalised path inside the root, classified by reading it:
   * a missing file and a binary file carry only a note, a text file carries its
   * (possibly truncated) content.
   */
  predicate EntryMatches(fs: FileSystem, root: Path, decode: seq<bv8> -> string, f: ContextFile) {
    && IsNormal(root)
    && '\\' !in f.path
    && !EscapesRoot(root, Resolve(root, f.path))
    && match SafelyReadTextFile(fs, Resolve(root, f.path), decode)
       case Ok(Missing) => f.content == None && f.note == Some(MissingNote) && !f.truncated
       case Ok(Binary) => f.content == None && f.note == Some(BinaryNote) && !f.truncated
       case Ok(Text(content, truncated)) => f.content == Some(content) && f.note == None && f.truncated == truncated
       case Err(_) => false
  }

  /** The path a skipped entry names, without its suffix. */
  function SkippedPath(s: string): string {
    if |s| >= |OutsideRootSuffix| then s[..|s| - |OutsideRootSuffix|] else s
  }

  /** A skipped entry: a normalised path outside the root, followed by the suffix. */
  predicate SkipEntry(root: Path, s: string) {
    && IsNormal(root)
    && EndsWith(s, OutsideRootSuffix)
    && '\\' !in SkippedPath(s)
    && EscapesRoot(root, Resolve(root, SkippedPath(s)))
  }

  /**
   * The dependencies the collector follows from an emitted entry: none unless the
   * entry is a text file whose extension is importable.
   */
  function DependenciesOf(fs: FileSystem, root: Path, scan: string -> seq<string>, f: ContextFile): (r: seq<string>)
    ensures forall i :: 0 <= i < |r| ==> '\\' !in r[i]
  {
    if IsNormal(root) && f.content.Some? && IsImportableFile(Resolve(root, f.path))
    then Dependencies(fs, root, scan, Resolve(root, f.path), f.content.value)
    else []
  }

  /** `path` is one of the dependencies found in the text of `parent`, one level below it. */
  predicate DependencyOf(fs: FileSystem, root: Path, scan: string -> seq<string>, parent: ContextFile, path: string, depth: nat) {
    parent.depth + 1 == depth && path in DependenciesOf(fs, root, scan, parent)
  }

  /** `DependencyOf`, over a given dependency function `edges`. */
  predicate Linked(edges: ContextFile -> seq<string>, parent: ContextFile, path: string, depth: nat) {
    parent.depth + 1 == depth && path in edges(parent)
  }

  function PathsOf(files: seq<ContextFile>): set<string> {
    set i | 0 <= i < |files| :: files[i].path
  }

  function SkippedPaths(skipped: seq<string>): set<string> {
    set k | 0 <= k < |skipped| :: SkippedPath(skipped[k])
  }

  /** The changed files not yet taken from the queue, `changedFiles[consumed..]`, are at its front. */
  predicate SeedsQueued(o: CollectContextOptions, queue: seq<QueueEntry>, consumed: nat) {
    && consumed <= |o.changedFiles|
    && |o.changedFiles| - consumed <= |queue|
    && forall j :: 0 <= j < |o.changedFiles| - consumed ==>
         queue[j] == QueueEntry(o.changedFiles[consumed + j], 0, Changed)
  }

  predicate SeedsVisited(o: CollectContextOptions, visited: set<string>, consumed: nat) {
    forall k :: 0 <= k < consumed && k < |o.changedFiles| ==> NormalizeRelativePath(o.changedFiles[k]) in visited
  }

  /**
   * The queue, behind its seeds, holds dependencies of emitted entries (`origin[j]`
   * is the index of the parent); it is ordered by depth and no shallower than any
   * emitted entry.
   */
  predicate QueueWellFormed(
    fs: FileSystem, o: CollectContextOptions, edges: ContextFile -> seq<string>,
    queue: seq<QueueEntry>, files: seq<ContextFile>, origin: seq<nat>, consumed: nat)
  {
    && |origin| == |queue|
    && (forall j :: 0 <= j < |queue| ==> WellDepthed(queue[j].depth, queue[j].reason, o.followDepth))
    && (forall j :: 0 <= j < |queue| && |o.changedFiles| - consumed <= j ==>
          origin[j] < |files| && '\\' !in queue[j].path)
    && (forall j {:trigger Linked(edges, files[origin[j]], queue[j].path, queue[j].depth)} ::
          0 <= j < |queue| && |o.changedFiles| - consumed <= j && origin[j] < |files| ==>
          Linked(edges, files[origin[j]], queue[j].path, queue[j].depth))
    && QueueOrdered(queue)
    && FilesBeforeQueue(files, queue)
  }

  /** Where entry `i` comes from: a changed file (depth 0) or an earlier emitted entry. */
  predicate FromOrigin(fs: FileSystem, o: CollectContextOptions, edges: ContextFile -> seq<string>, files: seq<ContextFile>, i: nat, origin: nat)
    requires i < |files|
  {
    if files[i].depth == 0 then origin < |o.changedFiles| && files[i].path == NormalizeRelativePath(o.changedFiles[origin])
    else origin < i && Linked(edges, files[origin], files[i].path, files[i].depth)
  }

  predicate FilesWellFormed(
    fs: FileSystem, o: CollectContextOptions, edges: ContextFile -> seq<string>, decode: seq<bv8> -> string,
    files: seq<ContextFile>, origin: seq<nat>)
  {
    && |origin| == |files|
    // No entry is taken under a negative `maxFiles` (possible from an unchecked configuration file), where `|files| <= maxFiles` alone fails.
    && (|files| == 0 || |files| <= o.maxFiles)
    && DepthSorted(files)
    && DistinctPaths(files)
    && (forall i :: 0 <= i < |files| ==> WellDepthed(files[i].depth, files[i].reason, o.followDepth))
    && (forall i {:trigger EntryMatches(fs, o.root, decode, files[i])} ::
          0 <= i < |files| ==> EntryMatches(fs, o.root, decode, files[i]))
    && (forall i {:trigger FromOrigin(fs, o, edges, files, i, origin[i])} ::
          0 <= i < |files| ==> FromOrigin(fs, o, edges, files, i, origin[i]))
  }

  /** Every visited path was either emitted or skipped, and never both. */
  predicate VisitedAccounted(root: Path, visited: set<string>, files: seq<ContextFile>, skipped: seq<string>) {
    && visited == PathsOf(files) + SkippedPaths(skipped)
    && (forall k {:trigger SkipEntry(root, skipped[k])} :: 0 <= k < |skipped| ==> SkipEntry(root, skipped[k]))
    && (forall k :: 0 <= k < |skipped| ==> SkippedPath(skipped[k]) !in PathsOf(files))
  }

  /** Taking the front of the queue keeps the seeds at the front of the rest. */
  lemma PopSeeds(o: CollectContextOptions, queue: seq<QueueEntry>, consumed: nat)
    requires |queue| > 0 && SeedsQueued(o, queue, consumed)
    ensures SeedsQueued(o, queue[1..], if consumed < |o.changedFiles| then consumed + 1 else consumed)
    ensures consumed < |o.changedFiles| ==> queue[0] == QueueEntry(o.changedFiles[consumed], 0, Changed)
  {
    var c := if consumed < |o.changedFiles| then consumed + 1 else consumed;
    assert forall j :: 0 <= j < |o.changedFiles| - c ==> queue[1..][j] == queue[j + 1];
  }

  /** Taking the front of the queue keeps the rest well formed. */
  lemma PopQueue(
    fs: FileSystem, o: CollectContextOptions, edges: ContextFile -> seq<string>,
    queue: seq<QueueEntry>, files: seq<ContextFile>, origin: seq<nat>, consumed: nat)
    requires |queue| > 0 && consumed <= |o.changedFiles| && QueueWellFormed(fs, o, edges, queue, files, origin, consumed)
    ensures QueueWellFormed(fs, o, edges, queue[1..], files, origin[1..], if consumed < |o.changedFiles| then consumed + 1 else consumed)
  {
    var c := if consumed < |o.changedFiles| then consumed + 1 else consumed;
    var rest := queue[1..];
    assert forall j :: 0 <= j < |rest| ==> rest[j] == queue[j + 1] && origin[1..][j] == origin[j + 1];
  }

  /** What is known of the front of the queue: its depth, and where it comes from. */
  lemma FrontFacts(
    fs: FileSystem, o: CollectContextOptions, edges: ContextFile -> seq<string>,
    queue: seq<QueueEntry>, files: seq<ContextFile>, origin: seq<nat>, consumed: nat)
    requires |queue| > 0 && QueueWellFormed(fs, o, edges, queue, files, origin, consumed)
    ensures WellDepthed(queue[0].depth, queue[0].reason, o.followDepth)
    ensures forall j :: 0 <= j < |queue| - 1 ==> queue[0].depth <= queue[1..][j].depth <= queue[0].depth + 1
    ensures forall i :: 0 <= i < |files| ==> files[i].depth <= queue[0].depth
    ensures consumed >= |o.changedFiles| ==>
      origin[0] < |files| && Linked(edges, files[origin[0]], queue[0].path, queue[0].depth)
  {
  }

  /** Recording a path outside the root as skipped keeps every visited path accounted for. */
  lemma SkipPreserves(root: Path, visited: set<string>, files: seq<ContextFile>, skipped: seq<string>, p: string)
    requires IsNormal(root) && VisitedAccounted(root, visited, files, skipped)
    requires p !in visited && '\\' !in p && EscapesRoot(root, Resolve(root, p))
    ensures VisitedAccounted(root, visited + {p}, files, skipped + [p + OutsideRootSuffix])
  {
    var s := skipped + [p + OutsideRootSuffix];
    assert (p + OutsideRootSuffix)[..|p|] == p;
    assert SkippedPath(p + OutsideRootSuffix) == p;
    assert forall k :: 0 <= k < |skipped| ==> s[k] == skipped[k];
    assert SkippedPaths(s) == SkippedPaths(skipped) + {p} by {
      forall x | x in SkippedPaths(s) ensures x in SkippedPaths(skipped) + {p} {
        var k :| 0 <= k < |s| && SkippedPath(s[k]) == x;
        if k < |skipped| {
          assert SkippedPath(skipped[k]) == x;
        }
      }
      assert SkippedPath(s[|skipped|]) == p;
    }
  }

  /** Emitting an entry no deeper than the queue keeps the queue well formed. */
  lemma EmitKeepsQueue(
    fs: FileSystem, o: CollectContextOptions, edges: ContextFile -> seq<string>,
    queue: seq<QueueEntry>, queueOrigin: seq<nat>, consumed: nat, files: seq<ContextFile>, entry: ContextFile)
    requires QueueWellFormed(fs, o, edges, queue, files, queueOrigin, consumed)
    requires forall j :: 0 <= j < |queue| ==> entry.depth <= queue[j].depth
    ensures QueueWellFormed(fs, o, edges, queue, files + [entry], queueOrigin, consumed)
  {
    var f := files + [entry];
    assert forall i :: 0 <= i < |files| ==> f[i] == files[i];
  }

  /** Emitting a new, correctly classified entry at the current depth keeps the files well formed. */
  lemma EmitKeepsFiles(
    fs: FileSystem, o: CollectContextOptions, edges: ContextFile -> seq<string>, decode: seq<bv8> -> string,
    files: seq<ContextFile>, fileOrigin: seq<nat>, entry: ContextFile, origin: nat)
    requires FilesWellFormed(fs, o, edges, decode, files, fileOrigin)
    requires entry.path !in PathsOf(files) && |files| < o.maxFiles
    requires WellDepthed(entry.depth, entry.reason, o.followDepth) && EntryMatches(fs, o.root, decode, entry)
    requires forall i :: 0 <= i < |files| ==> files[i].depth <= entry.depth
    requires FromOrigin(fs, o, edges, files + [entry], |files|, origin)
    ensures FilesWellFormed(fs, o, edges, decode, files + [entry], fileOrigin + [origin])
  {
    var f := files + [entry];
    assert forall i :: 0 <= i < |files| ==> f[i] == files[i];
    forall i | 0 <= i < |f|
      ensures FromOrigin(fs, o, edges, f, i, (fileOrigin + [origin])[i])
    {
      if i < |files| {
        assert FromOrigin(fs, o, edges, files, i, fileOrigin[i]);
      }
    }
  }

  /** Emitting a new path keeps every visited path accounted for. */
  lemma EmitKeepsVisited(root: Path, visited: set<string>, files: seq<ContextFile>, skipped: seq<string>, entry: ContextFile)
    requires VisitedAccounted(root, visited, files, skipped)
    requires entry.path !in visited
    ensures VisitedAccounted(root, visited + {entry.path}, files + [entry], skipped)
    ensures entry.path !in PathsOf(files)
  {
    var f := files + [entry];
    assert PathsOf(f) == PathsOf(files) + {entry.path} by {
      forall x | x in PathsOf(f) ensures x in PathsOf(files) + {entry.path} {
        var i :| 0 <= i < |f| && f[i].path == x;
        if i < |files| {
          assert files[i].path == x;
        }
      }
      forall x | x in PathsOf(files) ensures x in PathsOf(f) {
        var i :| 0 <= i < |files| && files[i].path == x;
        assert f[i].path == x;
      }
      assert f[|files|].path == entry.path;
    }
  }

  /** Queueing a dependency of the last emitted entry keeps the seeds at the front. */
  lemma EnqueueKeepsSeeds(o: CollectContextOptions, queue: seq<QueueEntry>, consumed: nat, e: QueueEntry)
    requires SeedsQueued(o, queue, consumed)
    ensures SeedsQueued(o, queue + [e], consumed)
  {
    assert forall j :: 0 <= j < |queue| ==> (queue + [e])[j] == queue[j];
  }

  /** Queueing a dependency of the last emitted entry, one level below it, keeps the queue well formed. */
  lemma EnqueueKeepsQueue(
    fs: FileSystem, o: CollectContextOptions, edges: ContextFile -> seq<string>,
    queue: seq<QueueEntry>, queueOrigin: seq<nat>, consumed: nat, files: seq<ContextFile>, dependency: string)
    requires |files| > 0 && consumed <= |o.changedFiles| && |o.changedFiles| - consumed <= |queue|
    requires QueueWellFormed(fs, o, edges, queue, files, queueOrigin, consumed)
    requires files[|files| - 1].depth < o.followDepth
    requires Linked(edges, files[|files| - 1], dependency, files[|files| - 1].depth + 1) && '\\' !in dependency
    requires forall i :: 0 <= i < |files| ==> files[i].depth <= files[|files| - 1].depth
    requires forall j :: 0 <= j < |queue| ==> files[|files| - 1].depth <= queue[j].depth <= files[|files| - 1].depth + 1
    ensures QueueWellFormed(fs, o, edges, queue + [QueueEntry(dependency, files[|files| - 1].depth + 1, Dependency)],
      files, queueOrigin + [|files| - 1], consumed)
  {
    var e := QueueEntry(dependency, files[|files| - 1].depth + 1, Dependency);
    var q := queue + [e];
    var origin := queueOrigin + [|files| - 1];
    assert forall j :: 0 <= j < |queue| ==> q[j] == queue[j] && origin[j] == queueOrigin[j];
    assert q[|queue|] == e && origin[|queue|] == |files| - 1;
    assert forall j :: 0 <= j < |q| ==> WellDepthed(q[j].depth, q[j].reason, o.followDepth);
    assert forall j :: 0 <= j < |q| && |o.changedFiles| - consumed <= j ==>
      origin[j] < |files| && '\\' !in q[j].path && Linked(edges, files[origin[j]], q[j].path, q[j].depth);
    QueueOrderedAppend(queue, e);
    assert FilesBeforeQueue(files, q);
  }

  lemma QueueOrderedAppend(queue: seq<QueueEntry>, e: QueueEntry)
    requires QueueOrdered(queue) && e.depth >= 1
    requires forall j :: 0 <= j < |queue| ==> e.depth - 1 <= queue[j].depth <= e.depth
    ensures QueueOrdered(queue + [e])
  {
    var q := queue + [e];
    assert forall j :: 0 <= j < |queue| ==> q[j] == queue[j];
  }

  /** The collector's loop invariant, over its state and the ghost record of where entries come from. */
  predicate WalkInvariant(
    fs: FileSystem, o: CollectContextOptions, edges: ContextFile -> seq<string>, decode: seq<bv8> -> string,
    queue: seq<QueueEntry>, visited: set<string>, skipped: seq<string>, files: seq<ContextFile>,
    consumed: nat, queueOrigin: seq<nat>, fileOrigin: seq<nat>)
  {
    && IsNormal(o.root)
    && SeedsQueued(o, queue, consumed)
    && SeedsVisited(o, visited, consumed)
    && QueueWellFormed(fs, o, edges, queue, files, queueOrigin, consumed)
    && FilesWellFormed(fs, o, edges, decode, files, fileOrigin)
    && VisitedAccounted(o.root, visited, files, skipped)
  }

  /** How many changed files have left the queue once its front is taken. */
  function NextConsumed(o: CollectContextOptions, consumed: nat): nat {
    if consumed < |o.changedFiles| then consumed + 1 else consumed
  }

  /** Where the front of the queue comes from: its index in the changed files, or its parent's index. */
  function FrontOrigin(o: CollectContextOptions, consumed: nat, queueOrigin: seq<nat>): nat
    requires |queueOrigin| > 0
  {
    if consumed < |o.changedFiles| then consumed else queueOrigin[0]
  }

  /** All depths in the queue lie between `depth` and `depth + 1`. */
  predicate WithinLevel(queue: seq<QueueEntry>, depth: nat) {
    forall j :: 0 <= j < |queue| ==> depth <= queue[j].depth <= depth + 1
  }

  /** A path taken from the queue that was already visited is dropped without any other effect. */
  lemma RevisitStep(
    fs: FileSystem, o: CollectContextOptions, edges: ContextFile -> seq<string>, decode: seq<bv8> -> string,
    queue: seq<QueueEntry>, visited: set<string>, skipped: seq<string>, files: seq<ContextFile>,
    consumed: nat, queueOrigin: seq<nat>, fileOrigin: seq<nat>)
    requires |queue| > 0
    requires WalkInvariant(fs, o, edges, decode, queue, visited, skipped, files, consumed, queueOrigin, fileOrigin)
    requires NormalizeRelativePath(queue[0].path) in visited
    ensures WalkInvariant(fs, o, edges, decode, queue[1..], visited, skipped, files,
      NextConsumed(o, consumed), queueOrigin[1..], fileOrigin)
  {
    PopSeeds(o, queue, consumed);
    PopQueue(fs, o, edges, queue, files, queueOrigin, consumed);
  }

  /** A path outside the root is visited and recorded as skipped, and nothing else. */
  lemma SkipStep(
    fs: FileSystem, o: CollectContextOptions, edges: ContextFile -> seq<string>, decode: seq<bv8> -> string,
    queue: seq<QueueEntry>, visited: set<string>, skipped: seq<string>, files: seq<ContextFile>,
    consumed: nat, queueOrigin: seq<nat>, fileOrigin: seq<nat>)
    requires |queue| > 0
    requires WalkInvariant(fs, o, edges, decode, queue, visited, skipped, files, consumed, queueOrigin, fileOrigin)
    requires NormalizeRelativePath(queue[0].path) !in visited
    requires EscapesRoot(o.root, Resolve(o.root, NormalizeRelativePath(queue[0].path)))
    ensures var p := NormalizeRelativePath(queue[0].path);
      WalkInvariant(fs, o, edges, decode, queue[1..], visited + {p}, skipped + [p + OutsideRootSuffix], files,
        NextConsumed(o, consumed), queueOrigin[1..], fileOrigin)
  {
    var p := NormalizeRelativePath(queue[0].path);
    PopSeeds(o, queue, consumed);
    PopQueue(fs, o, edges, queue, files, queueOrigin, consumed);
    SkipPreserves(o.root, visited, files, skipped, p);
  }

  /**
   * A path inside the root is visited and emitted with the depth and reason it was
   * queued with; afterwards the queue holds only its level and the next one.
   */
  lemma EmitStep(
    fs: FileSystem, o: CollectContextOptions, edges: ContextFile -> seq<string>, decode: seq<bv8> -> string,
    queue: seq<QueueEntry>, visited: set<string>, skipped: seq<string>, files: seq<ContextFile>,
    consumed: nat, queueOrigin: seq<nat>, fileOrigin: seq<nat>, entry: ContextFile)
    requires |queue| > 0 && |files| < o.maxFiles
    requires WalkInvariant(fs, o, edges, decode, queue, visited, skipped, files, consumed, queueOrigin, fileOrigin)
    requires entry.path == NormalizeRelativePath(queue[0].path) && entry.path !in visited
    requires entry.depth == queue[0].depth && entry.reason == queue[0].reason
    requires EntryMatches(fs, o.root, decode, entry)
    ensures WalkInvariant(fs, o, edges, decode, queue[1..], visited + {entry.path}, skipped, files + [entry],
      NextConsumed(o, consumed), queueOrigin[1..], fileOrigin + [FrontOrigin(o, consumed, queueOrigin)])
    ensures WithinLevel(queue[1..], entry.depth)
  {
    var c := NextConsumed(o, consumed);
    var origin := FrontOrigin(o, consumed, queueOrigin);
    PopSeeds(o, queue, consumed);
    PopQueue(fs, o, edges, queue, files, queueOrigin, consumed);
    FrontFacts(fs, o, edges, queue, files, queueOrigin, consumed);
    EmitOrigin(fs, o, edges, queue, files, queueOrigin, consumed, entry);
    EmitKeepsVisited(o.root, visited, files, skipped, entry);
    EmitKeepsFiles(fs, o, edges, decode, files, fileOrigin, entry, origin);
    EmitKeepsQueue(fs, o, edges, queue[1..], queueOrigin[1..], c, files, entry);
    assert SeedsVisited(o, visited + {entry.path}, c) by {
      if consumed < |o.changedFiles| {
        assert entry.path == NormalizeRelativePath(o.changedFiles[consumed]);
      }
    }
  }

  /** The origin of an emitted entry is the origin of the queue entry it was taken from. */
  lemma EmitOrigin(
    fs: FileSystem, o: CollectContextOptions, edges: ContextFile -> seq<string>,
    queue: seq<QueueEntry>, files: seq<ContextFile>, queueOrigin: seq<nat>, consumed: nat, entry: ContextFile)
    requires |queue| > 0
    requires SeedsQueued(o, queue, consumed) && QueueWellFormed(fs, o, edges, queue, files, queueOrigin, consumed)
    requires entry.path == NormalizeRelativePath(queue[0].path) && entry.depth == queue[0].depth
    ensures FromOrigin(fs, o, edges, files + [entry], |files|, FrontOrigin(o, consumed, queueOrigin))
  {
    var origin := FrontOrigin(o, consumed, queueOrigin);
    var f := files + [entry];
    if consumed >= |o.changedFiles| {
      assert Linked(edges, files[origin], queue[0].path, queue[0].depth);
      assert '\\' !in queue[0].path;
      assert f[origin] == files[origin];
    } else {
      assert queue[0] == QueueEntry(o.changedFiles[consumed], 0, Changed);
    }
  }

  /** In a depth-sorted list the last entry is the deepest. */
  lemma LastIsDeepest(files: seq<ContextFile>)
    requires |files| > 0 && DepthSorted(files)
    ensures forall k :: 0 <= k < |files| ==> files[k].depth <= files[|files| - 1].depth
  {
  }

  /**
   * Queueing one dependency of the last emitted text entry, one level below it, keeps
   * the invariant, and the queue still holds only that entry's level and the next.
   */
  lemma EnqueueStep(
    fs: FileSystem, o: CollectContextOptions, edges: ContextFile -> seq<string>, decode: seq<bv8> -> string,
    queue: seq<QueueEntry>, visited: set<string>, skipped: seq<string>, files: seq<ContextFile>,
    consumed: nat, queueOrigin: seq<nat>, fileOrigin: seq<nat>,
    parent: ContextFile, dependency: string)
    requires |files| > 0 && files[|files| - 1] == parent
    requires WalkInvariant(fs, o, edges, decode, queue, visited, skipped, files, consumed, queueOrigin, fileOrigin)
    requires parent.depth < o.followDepth
    requires Linked(edges, parent, dependency, parent.depth + 1) && '\\' !in dependency
    requires WithinLevel(queue, parent.depth)
    ensures WalkInvariant(fs, o, edges, decode, queue + [QueueEntry(dependency, parent.depth + 1, Dependency)],
      visited, skipped, files, consumed, queueOrigin + [|files| - 1], fileOrigin)
    ensures WithinLevel(queue + [QueueEntry(dependency, parent.depth + 1, Dependency)], parent.depth)
  {
    var e := QueueEntry(dependency, parent.depth + 1, Dependency);
    LastIsDeepest(files);
    EnqueueKeepsSeeds(o, queue, consumed, e);
    EnqueueKeepsQueue(fs, o, edges, queue, queueOrigin, consumed, files, dependency);
    WithinLevelAppend(queue, parent.depth, e);
  }

  /** Each dependency extracted from the last emitted entry is one the walk may follow from it. */
  lemma FoundDependencies(
    fs: FileSystem, root: Path, scan: string -> seq<string>, edges: ContextFile -> seq<string>,
    parent: ContextFile, content: string, dependencies: seq<string>)
    requires IsNormal(root)
    requires edges(parent) == DependenciesOf(fs, root, scan, parent)
    requires parent.content == Some(content) && IsImportableFile(Resolve(root, parent.path))
    requires dependencies == Dependencies(fs, root, scan, Resolve(root, parent.path), content)
    ensures dependencies == edges(parent)
    ensures forall k :: 0 <= k < |dependencies| ==>
      Linked(edges, parent, dependencies[k], parent.depth + 1) && '\\' !in dependencies[k]
  {
  }

  /** The queue entries for `dependencies`, all at `depth`. */
  function DependencyEntries(dependencies: seq<string>, depth: nat): (r: seq<QueueEntry>)
    ensures |r| == |dependencies|
    ensures forall k :: 0 <= k < |r| ==> r[k] == QueueEntry(dependencies[k], depth, Dependency)
  {
    seq(|dependencies|, k requires 0 <= k < |dependencies| => QueueEntry(dependencies[k], depth, Dependency))
  }

  lemma WithinLevelAppend(queue: seq<QueueEntry>, depth: nat, e: QueueEntry)
    requires WithinLevel(queue, depth) && depth <= e.depth <= depth + 1
    ensures WithinLevel(queue + [e], depth)
  {
    assert forall j :: 0 <= j < |queue| ==> (queue + [e])[j] == queue[j];
  }

  /** The dependencies the walk follows from each entry, as a function of the entry. */
  function DependencyEdges(fs: FileSystem, root: Path, scan: string -> seq<string>): ContextFile -> seq<string> {
    f => DependenciesOf(fs, root, scan, f)
  }

  /**
   * `edges` gives every entry its dependencies. The fact is used only where those
   * dependencies are named, which keeps it out of the proofs that reason on `edges` alone.
   */
  ghost predicate EdgesOf(fs: FileSystem, root: Path, scan: string -> seq<string>, edges: ContextFile -> seq<string>) {
    forall f {:trigger DependenciesOf(fs, root, scan, f)} :: edges(f) == DependenciesOf(fs, root, scan, f)
  }

  /**
   * `importable` is what `IsImportableFile` says of `p`. Like `EdgesOf`, the fact is used
   * only where `IsImportableFile` is named, which keeps the extension test out of the
   * proofs that only branch on its outcome.
   */
  ghost predicate ImportableVerdict(p: Path, importable: bool) {
    forall q {:trigger IsImportableFile(q)} :: q == p ==> (importable <==> IsImportableFile(q))
  }

  lemma DependencyEdgesApply(fs: FileSystem, root: Path, scan: string -> seq<string>)
    ensures EdgesOf(fs, root, scan, DependencyEdges(fs, root, scan))
  {
  }

  /** How many more entries fit below `maxFiles` once `used` are emitted or queued. */
  function Room(maxFiles: int, used: nat): nat {
    if used < maxFiles then maxFiles - used else 0
  }

  /** The first `room` dependencies, or all of them when they fit. */
  function Capped(dependencies: seq<string>, room: nat): seq<string> {
    if |dependencies| <= room then dependencies else dependencies[..room]
  }

  /**
   * The dependencies of `entry` (along `edges`) that the collector queues, one level
   * down, once it is emitted, when `used` entries are emitted or still queued by then:
   * as many as fit below `maxFiles`, and none at the depth limit.
   */
  function FollowedDependencies(edges: ContextFile -> seq<string>, o: CollectContextOptions, entry: ContextFile, used: nat)
    : seq<string>
  {
    if entry.depth < o.followDepth then Capped(edges(entry), Room(o.maxFiles, used)) else []
  }

  /** The cap cut off some of the dependencies of `entry`. */
  predicate ExpansionCapped(edges: ContextFile -> seq<string>, o: CollectContextOptions, entry: ContextFile, used: nat) {
    entry.depth < o.followDepth && |edges(entry)| > Room(o.maxFiles, used)
  }

  /** The number of dependencies of the entries below the depth limit, in total. */
  function DependencyCount(edges: ContextFile -> seq<string>, o: CollectContextOptions, files: seq<ContextFile>): nat {
    if files == [] then 0
    else
      var last := files[|files| - 1];
      DependencyCount(edges, o, files[..|files| - 1]) + (if last.depth < o.followDepth then |edges(last)| else 0)
  }

  function QueuePaths(queue: seq<QueueEntry>): set<string> {
    set j | 0 <= j < |queue| :: queue[j].path
  }

  /** Every dependency of an entry below the depth limit is in `reached`. */
  predicate AllFollowed(edges: ContextFile -> seq<string>, o: CollectContextOptions, files: seq<ContextFile>, reached: set<string>) {
    forall i, d :: 0 <= i < |files| && files[i].depth < o.followDepth && d in edges(files[i]) ==> d in reached
  }

  /**
   * The walk's progress: `popped` entries have left the queue and `enqueued`
   * dependencies have entered it. If the cap has cut off any dependency (`capped`),
   * the changed files and the dependencies queued so far reached `maxFiles`;
   * otherwise every dependency of an entry below the depth limit is visited or queued.
   */
  predicate Coverage(
    edges: ContextFile -> seq<string>, o: CollectContextOptions,
    queue: seq<QueueEntry>, visited: set<string>, files: seq<ContextFile>, capped: bool, popped: nat, enqueued: nat)
  {
    && popped + |queue| == |o.changedFiles| + enqueued
    && |files| <= popped
    && enqueued <= DependencyCount(edges, o, files)
    && (capped ==> o.maxFiles <= |o.changedFiles| + enqueued)
    && (!capped ==> AllFollowed(edges, o, files, visited + QueuePaths(queue)))
  }

  /** Before the walk, only the changed files are queued. */
  lemma CoverageStart(edges: ContextFile -> seq<string>, o: CollectContextOptions, queue: seq<QueueEntry>)
    requires |queue| == |o.changedFiles|
    ensures Coverage(edges, o, queue, {}, [], false, 0, 0)
  {
  }

  /** A dependency found at the front of the queue is reached once that front is visited. */
  lemma FollowedPop(
    fs: FileSystem, o: CollectContextOptions, scan: string -> seq<string>, edges: ContextFile -> seq<string>,
    queue: seq<QueueEntry>, visited: set<string>, visited': set<string>, files: seq<ContextFile>)
    requires EdgesOf(fs, o.root, scan, edges)
    requires |queue| > 0 && AllFollowed(edges, o, files, visited + QueuePaths(queue))
    requires visited <= visited' && NormalizeRelativePath(queue[0].path) in visited'
    ensures AllFollowed(edges, o, files, visited' + QueuePaths(queue[1..]))
  {
    forall i, d | 0 <= i < |files| && files[i].depth < o.followDepth && d in edges(files[i])
      ensures d in visited' + QueuePaths(queue[1..])
    {
      assert d in visited + QueuePaths(queue);
      if d !in visited {
        var j :| 0 <= j < |queue| && queue[j].path == d;
        if j == 0 {
          assert d in DependenciesOf(fs, o.root, scan, files[i]);
          assert NormalizeRelativePath(d) == d;
        } else {
          assert queue[1..][j - 1].path == d;
        }
      }
    }
  }

  /** Taking the front of the queue, whose path is then visited, keeps the coverage. */
  lemma CoveragePop(
    fs: FileSystem, o: CollectContextOptions, scan: string -> seq<string>, edges: ContextFile -> seq<string>,
    queue: seq<QueueEntry>, visited: set<string>, visited': set<string>, files: seq<ContextFile>,
    capped: bool, popped: nat, enqueued: nat)
    requires EdgesOf(fs, o.root, scan, edges)
    requires |queue| > 0 && Coverage(edges, o, queue, visited, files, capped, popped, enqueued)
    requires visited <= visited' && NormalizeRelativePath(queue[0].path) in visited'
    ensures Coverage(edges, o, queue[1..], visited', files, capped, popped + 1, enqueued)
  {
    if !capped {
      FollowedPop(fs, o, scan, edges, queue, visited, visited', files);
    }
  }

  lemma DependencyCountSnoc(edges: ContextFile -> seq<string>, o: CollectContextOptions, files: seq<ContextFile>, entry: ContextFile)
    ensures DependencyCount(edges, o, files + [entry])
      == DependencyCount(edges, o, files) + (if entry.depth < o.followDepth then |edges(entry)| else 0)
  {
    assert (files + [entry])[..|files|] == files;
  }

  /** The cap keeps all the dependencies, or exactly as many as there is room for. */
  lemma FollowedSize(edges: ContextFile -> seq<string>, o: CollectContextOptions, entry: ContextFile, used: nat)
    ensures var followed := FollowedDependencies(edges, o, entry, used);
      && |followed| <= (if entry.depth < o.followDepth then |edges(entry)| else 0)
      && (ExpansionCapped(edges, o, entry, used) ==> |followed| == Room(o.maxFiles, used))
      && (!ExpansionCapped(edges, o, entry, used) && entry.depth < o.followDepth ==> followed == edges(entry))
  {
  }

  /** Appending entries keeps the queued paths and adds theirs. */
  lemma QueuePathsAppend(queue: seq<QueueEntry>, dependencies: seq<string>, depth: nat)
    ensures QueuePaths(queue) <= QueuePaths(queue + DependencyEntries(dependencies, depth))
    ensures forall d :: d in dependencies ==> d in QueuePaths(queue + DependencyEntries(dependencies, depth))
  {
    var q := queue + DependencyEntries(dependencies, depth);
    forall x | x in QueuePaths(queue) ensures x in QueuePaths(q) {
      var j :| 0 <= j < |queue| && queue[j].path == x;
      assert q[j].path == x;
    }
    forall d | d in dependencies ensures d in QueuePaths(q) {
      var k :| 0 <= k < |dependencies| && dependencies[k] == d;
      assert q[|queue| + k].path == d;
    }
  }

  /** One more entry whose dependencies are all reached keeps every dependency reached. */
  lemma FollowedSnoc(
    edges: ContextFile -> seq<string>, o: CollectContextOptions,
    files: seq<ContextFile>, entry: ContextFile, reached: set<string>, reached': set<string>)
    requires AllFollowed(edges, o, files, reached) && reached <= reached'
    requires entry.depth < o.followDepth ==> forall d :: d in edges(entry) ==> d in reached'
    ensures AllFollowed(edges, o, files + [entry], reached')
  {
    var f := files + [entry];
    forall i, d | 0 <= i < |f| && f[i].depth < o.followDepth && d in edges(f[i])
      ensures d in reached'
    {
      if i < |files| {
        assert f[i] == files[i];
      }
    }
  }

  /** Queueing the followed dependencies of the entry just emitted keeps the coverage. */
  lemma CoverageExpand(
    edges: ContextFile -> seq<string>, o: CollectContextOptions,
    queue: seq<QueueEntry>, visited: set<string>, files: seq<ContextFile>, entry: ContextFile,
    capped: bool, popped: nat, enqueued: nat)
    requires Coverage(edges, o, queue, visited, files, capped, popped, enqueued) && |files| < popped
    ensures var used := |files| + 1 + |queue|;
      var followed := FollowedDependencies(edges, o, entry, used);
      Coverage(edges, o, queue + DependencyEntries(followed, entry.depth + 1), visited, files + [entry],
        capped || ExpansionCapped(edges, o, entry, used), popped, enqueued + |followed|)
  {
    var used := |files| + 1 + |queue|;
    var followed := FollowedDependencies(edges, o, entry, used);
    var q := queue + DependencyEntries(followed, entry.depth + 1);
    DependencyCountSnoc(edges, o, files, entry);
    FollowedSize(edges, o, entry, used);
    QueuePathsAppend(queue, followed, entry.depth + 1);
    if !capped && !ExpansionCapped(edges, o, entry, used) {
      FollowedSnoc(edges, o, files, entry, visited + QueuePaths(queue), visited + QueuePaths(q));
    }
  }

  /** Emitting the front of the queue and queueing its followed dependencies keeps the coverage. */
  lemma CoverageEmit(
    fs: FileSystem, o: CollectContextOptions, scan: string -> seq<string>, edges: ContextFile -> seq<string>,
    queue: seq<QueueEntry>, visited: set<string>, files: seq<ContextFile>,
    capped: bool, popped: nat, enqueued: nat, queue': seq<QueueEntry>, files': seq<ContextFile>, normalizedPath: string)
    requires EdgesOf(fs, o.root, scan, edges)
    requires |queue| > 0 && Coverage(edges, o, queue, visited, files, capped, popped, enqueued)
    requires normalizedPath == NormalizeRelativePath(queue[0].path)
    requires |files'| == |files| + 1 && files'[..|files|] == files
    requires queue' == queue[1..] + DependencyEntries(FollowedDependencies(edges, o, files'[|files|], |files| + |queue|), files'[|files|].depth + 1)
    ensures Coverage(edges, o, queue', visited + {normalizedPath}, files',
      capped || ExpansionCapped(edges, o, files'[|files|], |files| + |queue|), popped + 1,
      enqueued + |FollowedDependencies(edges, o, files'[|files|], |files| + |queue|)|)
  {
    assert files' == files + [files'[|files|]];
    CoveragePop(fs, o, scan, edges, queue, visited, visited + {normalizedPath}, files, capped, popped, enqueued);
    CoverageExpand(edges, o, queue[1..], visited + {normalizedPath}, files, files'[|files|], capped, popped + 1, enqueued);
  }

  /** An entry that is not followed adds nothing to the queue. */
  lemma ExpansionUnfollowed(
    fs: FileSystem, o: CollectContextOptions, scan: string -> seq<string>, edges: ContextFile -> seq<string>,
    entry: ContextFile, used: nat, absolutePath: Path, importable: bool, queue: seq<QueueEntry>)
    requires EdgesOf(fs, o.root, scan, edges)
    requires IsNormal(o.root) && absolutePath == Resolve(o.root, entry.path)
    requires ImportableVerdict(absolutePath, importable)
    requires !(entry.content.Some? && entry.depth < o.followDepth && importable)
    ensures FollowedDependencies(edges, o, entry, used) == []
    ensures queue == queue + DependencyEntries(FollowedDependencies(edges, o, entry, used), entry.depth + 1)
  {
    assert edges(entry) == DependenciesOf(fs, o.root, scan, entry);
    assert queue + DependencyEntries([], entry.depth + 1) == queue;
  }

  /**
   * Below the depth limit, the followed dependencies of a text file with an importable
   * extension are the first `Room` of the dependencies found in its text, so a queue
   * extended by those is extended by its followed dependencies.
   */
  lemma ExpansionFollowed(
    o: CollectContextOptions, edges: ContextFile -> seq<string>, entry: ContextFile, used: nat,
    dependencies: seq<string>, rest: seq<QueueEntry>, queue: seq<QueueEntry>)
    requires entry.depth < o.followDepth && dependencies == edges(entry)
    requires queue == rest + DependencyEntries(Capped(dependencies, Room(o.maxFiles, used)), entry.depth + 1)
    ensures queue == rest + DependencyEntries(FollowedDependencies(edges, o, entry, used), entry.depth + 1)
  {
  }

  /**
   * What the collector guarantees about the files it emits and the paths it skips:
   * at most `maxFiles` entries (none at all under a negative `maxFiles`, possible from
   * an unchecked configuration file), distinct paths,
   * non-decreasing depths; each entry read and classified from the file system; only
   * changed files at depth 0, and each deeper entry a dependency of an earlier one a
   * level up; skipped paths outside the root and never emitted; and, below
   * `maxFiles`, every changed file reached, and every dependency of an entry below
   * the depth limit reached too unless the dependencies could have filled `maxFiles`.
   */
  predicate Collected(
    fs: FileSystem, o: CollectContextOptions, scan: string -> seq<string>, decode: seq<bv8> -> string,
    files: seq<ContextFile>, skipped: seq<string>)
  {
    && (|files| == 0 || |files| <= o.maxFiles)
    && DistinctPaths(files) && DepthSorted(files)
    && (forall i :: 0 <= i < |files| ==>
          WellDepthed(files[i].depth, files[i].reason, o.followDepth) && EntryMatches(fs, o.root, decode, files[i]))
    && (forall k :: 0 <= k < |skipped| ==> SkipEntry(o.root, skipped[k]) && SkippedPath(skipped[k]) !in PathsOf(files))
    && (forall i :: 0 <= i < |files| && files[i].depth == 0 ==>
          exists k :: 0 <= k < |o.changedFiles| && files[i].path == NormalizeRelativePath(o.changedFiles[k]))
    && (forall i :: 0 <= i < |files| && files[i].depth > 0 ==>
          exists p :: 0 <= p < i && DependencyOf(fs, o.root, scan, files[p], files[i].path, files[i].depth))
    && (|files| < o.maxFiles ==>
          forall k :: 0 <= k < |o.changedFiles| ==> NormalizeRelativePath(o.changedFiles[k]) in PathsOf(files) + SkippedPaths(skipped))
    && (|files| < o.maxFiles && |o.changedFiles| + DependencyCount(DependencyEdges(fs, o.root, scan), o, files) < o.maxFiles ==>
          AllFollowed(DependencyEdges(fs, o.root, scan), o, files, PathsOf(files) + SkippedPaths(skipped)))
  }

  /** Each emitted entry is a changed file at depth 0 or a dependency of an earlier entry a level up. */
  lemma WalkOrigins(
    fs: FileSystem, o: CollectContextOptions, scan: string -> seq<string>, edges: ContextFile -> seq<string>, decode: seq<bv8> -> string,
    queue: seq<QueueEntry>, visited: set<string>, skipped: seq<string>, files: seq<ContextFile>,
    consumed: nat, queueOrigin: seq<nat>, fileOrigin: seq<nat>)
    requires WalkInvariant(fs, o, edges, decode, queue, visited, skipped, files, consumed, queueOrigin, fileOrigin)
    requires EdgesOf(fs, o.root, scan, edges)
    ensures forall i :: 0 <= i < |files| && files[i].depth == 0 ==>
      exists k :: 0 <= k < |o.changedFiles| && files[i].path == NormalizeRelativePath(o.changedFiles[k])
    ensures forall i :: 0 <= i < |files| && files[i].depth > 0 ==>
      exists p :: 0 <= p < i && DependencyOf(fs, o.root, scan, files[p], files[i].path, files[i].depth)
  {
    forall i | 0 <= i < |files|
      ensures files[i].depth == 0 ==> exists k :: 0 <= k < |o.changedFiles| && files[i].path == NormalizeRelativePath(o.changedFiles[k])
      ensures files[i].depth > 0 ==> exists p :: 0 <= p < i && DependencyOf(fs, o.root, scan, files[p], files[i].path, files[i].depth)
    {
      assert FromOrigin(fs, o, edges, files, i, fileOrigin[i]);
      if files[i].depth > 0 {
        assert edges(files[fileOrigin[i]]) == DependenciesOf(fs, o.root, scan, files[fileOrigin[i]]);
      }
    }
  }

  /** The walk invariant, read at the end of the walk. */
  lemma WalkFacts(
    fs: FileSystem, o: CollectContextOptions, edges: ContextFile -> seq<string>, decode: seq<bv8> -> string,
    queue: seq<QueueEntry>, visited: set<string>, skipped: seq<string>, files: seq<ContextFile>,
    consumed: nat, queueOrigin: seq<nat>, fileOrigin: seq<nat>)
    requires WalkInvariant(fs, o, edges, decode, queue, visited, skipped, files, consumed, queueOrigin, fileOrigin)
    requires |queue| == 0 || |files| >= o.maxFiles
    ensures |files| == 0 || |files| <= o.maxFiles
    ensures DistinctPaths(files) && DepthSorted(files)
    ensures visited == PathsOf(files) + SkippedPaths(skipped)
    ensures forall i :: 0 <= i < |files| ==>
      WellDepthed(files[i].depth, files[i].reason, o.followDepth) && EntryMatches(fs, o.root, decode, files[i])
    ensures forall k :: 0 <= k < |skipped| ==> SkipEntry(o.root, skipped[k]) && SkippedPath(skipped[k]) !in PathsOf(files)
    ensures |files| < o.maxFiles ==>
      forall k :: 0 <= k < |o.changedFiles| ==> NormalizeRelativePath(o.changedFiles[k]) in visited
  {
  }

  /** Once the walk stops, the coverage speaks of the visited paths alone. */
  lemma CoverageAtEnd(
    edges: ContextFile -> seq<string>, o: CollectContextOptions,
    queue: seq<QueueEntry>, visited: set<string>, files: seq<ContextFile>, capped: bool, popped: nat, enqueued: nat)
    requires Coverage(edges, o, queue, visited, files, capped, popped, enqueued)
    requires |queue| == 0 || |files| >= o.maxFiles
    ensures !capped && |files| < o.maxFiles ==> AllFollowed(edges, o, files, visited)
    ensures capped ==> o.maxFiles <= |o.changedFiles| + DependencyCount(edges, o, files)
    ensures |files| < o.maxFiles && |o.changedFiles| + DependencyCount(edges, o, files) < o.maxFiles ==>
      AllFollowed(edges, o, files, visited)
  {
    if |files| < o.maxFiles {
      assert QueuePaths(queue) == {};
      assert visited + QueuePaths(queue) == visited;
    }
  }

  /** Counting the dependencies along `edges` counts those the collector follows. */
  lemma {:induction false} DependencyCountOfEdges(
    fs: FileSystem, o: CollectContextOptions, scan: string -> seq<string>, edges: ContextFile -> seq<string>,
    files: seq<ContextFile>)
    requires EdgesOf(fs, o.root, scan, edges)
    ensures DependencyCount(edges, o, files) == DependencyCount(DependencyEdges(fs, o.root, scan), o, files)
  {
    if files != [] {
      var last := files[|files| - 1];
      DependencyCountOfEdges(fs, o, scan, edges, files[..|files| - 1]);
      DependencyEdgesApply(fs, o.root, scan);
      assert edges(last) == DependenciesOf(fs, o.root, scan, last);
    }
  }

  /** Following every dependency along `edges` is following every dependency the collector finds. */
  lemma AllFollowedOfEdges(
    fs: FileSystem, o: CollectContextOptions, scan: string -> seq<string>, edges: ContextFile -> seq<string>,
    files: seq<ContextFile>, reached: set<string>)
    requires EdgesOf(fs, o.root, scan, edges)
    ensures AllFollowed(edges, o, files, reached) <==> AllFollowed(DependencyEdges(fs, o.root, scan), o, files, reached)
  {
    DependencyEdgesApply(fs, o.root, scan);
    forall i | 0 <= i < |files|
      ensures edges(files[i]) == DependencyEdges(fs, o.root, scan)(files[i])
    {
      assert edges(files[i]) == DependenciesOf(fs, o.root, scan, files[i]);
    }
  }

  /** What the walk guarantees once it stops: the collector's postcondition, stated on its final state. */
  lemma WalkResult(
    fs: FileSystem, o: CollectContextOptions, scan: string -> seq<string>, edges: ContextFile -> seq<string>, decode: seq<bv8> -> string,
    queue: seq<QueueEntry>, visited: set<string>, skipped: seq<string>, files: seq<ContextFile>,
    consumed: nat, queueOrigin: seq<nat>, fileOrigin: seq<nat>, capped: bool, popped: nat, enqueued: nat)
    requires EdgesOf(fs, o.root, scan, edges)
    requires WalkInvariant(fs, o, edges, decode, queue, visited, skipped, files, consumed, queueOrigin, fileOrigin)
    requires Coverage(edges, o, queue, visited, files, capped, popped, enqueued)
    requires |queue| == 0 || |files| >= o.maxFiles
    ensures visited == PathsOf(files) + SkippedPaths(skipped)
    ensures Collected(fs, o, scan, decode, files, skipped)
    ensures !capped && |files| < o.maxFiles ==> AllFollowed(DependencyEdges(fs, o.root, scan), o, files, visited)
    ensures capped ==> o.maxFiles <= |o.changedFiles| + DependencyCount(DependencyEdges(fs, o.root, scan), o, files)
  {
    WalkFacts(fs, o, edges, decode, queue, visited, skipped, files, consumed, queueOrigin, fileOrigin);
    WalkOrigins(fs, o, scan, edges, decode, queue, visited, skipped, files, consumed, queueOrigin, fileOrigin);
    CoverageAtEnd(edges, o, queue, visited, files, capped, popped, enqueued);
    DependencyCountOfEdges(fs, o, scan, edges, files);
    AllFollowedOfEdges(fs, o, scan, edges, files, visited);
  }

  // ---------------------------------------------------------------------------
  // The walk as a function

  /**
   * The entry a queued path inside the root becomes: its queued depth and reason, with
   * a note for a missing or binary file and the (possibly truncated) text otherwise;
   * reading a directory is the read's error.
   */
  function EntryFor(fs: FileSystem, root: Path, decode: seq<bv8> -> string, current: QueueEntry, normalizedPath: string)
    : (r: Result<ContextFile>)
    requires IsNormal(root)
    ensures r.Err? <==> StatOf(fs, Resolve(root, normalizedPath)) == Directory
    ensures r.Err? ==> r.message == DirectoryReadError
    ensures r.Ok? ==> r.value.path == normalizedPath && r.value.depth == current.depth && r.value.reason == current.reason
  {
    var entry := ContextFile(normalizedPath, current.depth, current.reason, false, None, None);
    match SafelyReadTextFile(fs, Resolve(root, normalizedPath), decode)
    case Err(message) => Err(message)
    case Ok(Missing) => Ok(entry.(note := Some(MissingNote)))
    case Ok(Binary) => Ok(entry.(note := Some(BinaryNote)))
    case Ok(Text(content, truncated)) => Ok(entry.(content := Some(content), truncated := truncated))
  }

  /** The state of the walk between two passes: the queue, the visited paths, the skipped paths and the entries. */
  datatype WalkState = WalkState(queue: seq<QueueEntry>, visited: set<string>, skipped: seq<string>, files: seq<ContextFile>)

  /**
   * One pass of the walk over a non-empty queue: a visited front path is dropped; a new
   * one outside the root is visited and recorded as skipped; a new one inside the root
   * becomes its entry, visited, with its followed dependencies queued, unless reading
   * it fails.
   */
  function Advance(
    fs: FileSystem, o: CollectContextOptions, edges: ContextFile -> seq<string>, decode: seq<bv8> -> string,
    queue: seq<QueueEntry>, visited: set<string>, skipped: seq<string>, files: seq<ContextFile>)
    : (r: Result<WalkState>)
    requires IsNormal(o.root) && |queue| > 0
    ensures r.Ok? ==> visited <= r.value.visited && files <= r.value.files
    ensures r.Ok? ==> (|r.value.files| == |files| && |r.value.queue| == |queue| - 1) || |r.value.files| == |files| + 1
    ensures var p := NormalizeRelativePath(queue[0].path);
      r.Err? <==> p !in visited && !EscapesRoot(o.root, Resolve(o.root, p)) && StatOf(fs, Resolve(o.root, p)) == Directory
  {
    var normalizedPath := NormalizeRelativePath(queue[0].path);
    if normalizedPath in visited then
      Ok(WalkState(queue[1..], visited, skipped, files))
    else if EscapesRoot(o.root, Resolve(o.root, normalizedPath)) then
      Ok(WalkState(queue[1..], visited + {normalizedPath}, skipped + [normalizedPath + OutsideRootSuffix], files))
    else
      match EntryFor(fs, o.root, decode, queue[0], normalizedPath)
      case Err(message) => Err(message)
      case Ok(entry) =>
        Ok(WalkState(queue[1..] + DependencyEntries(FollowedDependencies(edges, o, entry, |files| + |queue|), entry.depth + 1),
          visited + {normalizedPath}, skipped, files + [entry]))
  }

  /**
   * The walk of `collectContextFiles` from a state: it passes over the queue until the
   * queue is empty or `maxFiles` entries are emitted, and its result is the final state.
   */
  function Walk(
    fs: FileSystem, o: CollectContextOptions, edges: ContextFile -> seq<string>, decode: seq<bv8> -> string,
    queue: seq<QueueEntry>, visited: set<string>, skipped: seq<string>, files: seq<ContextFile>)
    : Result<CollectResult>
    requires IsNormal(o.root)
    decreases o.maxFiles - |files|, |queue|
  {
    if |queue| == 0 || |files| >= o.maxFiles then Ok(CollectResult(files, visited, skipped))
    else
      match Advance(fs, o, edges, decode, queue, visited, skipped, files)
      case Err(message) => Err(message)
      case Ok(next) => Walk(fs, o, edges, decode, next.queue, next.visited, next.skipped, next.files)
  }

  /** The queue the collector starts from: every changed file, in order, at depth 0. */
  function InitialQueue(changedFiles: seq<string>): (queue: seq<QueueEntry>)
    ensures |queue| == |changedFiles|
    ensures forall j :: 0 <= j < |queue| ==> queue[j] == QueueEntry(changedFiles[j], 0, Changed)
  {
    seq(|changedFiles|, j requires 0 <= j < |changedFiles| => QueueEntry(changedFiles[j], 0, Changed))
  }

  /** What `collectContextFiles` returns: the walk from the changed files, along the dependencies of each entry. */
  function Collect(fs: FileSystem, o: CollectContextOptions, scan: string -> seq<string>, decode: seq<bv8> -> string)
    : Result<CollectResult>
    requires IsNormal(o.root)
  {
    Walk(fs, o, DependencyEdges(fs, o.root, scan), decode, InitialQueue(o.changedFiles), {}, [], [])
  }

  /**
   * The walk from this state ends in `outcome`. Like `EdgesOf`, the fact is used only
   * where the walk from this very state is named, which keeps the walk's definition
   * out of the proofs that only carry the fact from one state to the next.
   */
  ghost predicate WalksTo(
    fs: FileSystem, o: CollectContextOptions, edges: ContextFile -> seq<string>, decode: seq<bv8> -> string,
    queue: seq<QueueEntry>, visited: set<string>, skipped: seq<string>, files: seq<ContextFile>, outcome: Result<CollectResult>)
  {
    && IsNormal(o.root)
    && forall q {:trigger Walk(fs, o, edges, decode, q, visited, skipped, files)} ::
         q == queue ==> Walk(fs, o, edges, decode, q, visited, skipped, files) == outcome
  }

  /** The walk stops, with the state as its result, once the queue is empty or `maxFiles` entries are emitted. */
  lemma WalkStops(
    fs: FileSystem, o: CollectContextOptions, edges: ContextFile -> seq<string>, decode: seq<bv8> -> string,
    queue: seq<QueueEntry>, visited: set<string>, skipped: seq<string>, files: seq<ContextFile>, outcome: Result<CollectResult>)
    requires WalksTo(fs, o, edges, decode, queue, visited, skipped, files, outcome)
    requires |queue| == 0 || |files| >= o.maxFiles
    ensures outcome == Ok(CollectResult(files, visited, skipped))
  {
    assert Walk(fs, o, edges, decode, queue, visited, skipped, files) == outcome;
  }

  /** A visited front path is dropped and the walk goes on from the rest of the queue. */
  lemma WalkRevisits(
    fs: FileSystem, o: CollectContextOptions, edges: ContextFile -> seq<string>, decode: seq<bv8> -> string,
    queue: seq<QueueEntry>, visited: set<string>, skipped: seq<string>, files: seq<ContextFile>, outcome: Result<CollectResult>)
    requires WalksTo(fs, o, edges, decode, queue, visited, skipped, files, outcome)
    requires |queue| > 0 && |files| < o.maxFiles
    requires NormalizeRelativePath(queue[0].path) in visited
    ensures WalksTo(fs, o, edges, decode, queue[1..], visited, skipped, files, outcome)
  {
    assert Advance(fs, o, edges, decode, queue, visited, skipped, files) == Ok(WalkState(queue[1..], visited, skipped, files));
    assert Walk(fs, o, edges, decode, queue, visited, skipped, files) == outcome;
  }

  /** A new front path outside the root is visited and skipped, and the walk goes on. */
  lemma WalkSkips(
    fs: FileSystem, o: CollectContextOptions, edges: ContextFile -> seq<string>, decode: seq<bv8> -> string,
    queue: seq<QueueEntry>, visited: set<string>, skipped: seq<string>, files: seq<ContextFile>, normalizedPath: string,
    outcome: Result<CollectResult>)
    requires WalksTo(fs, o, edges, decode, queue, visited, skipped, files, outcome)
    requires |queue| > 0 && |files| < o.maxFiles
    requires normalizedPath == NormalizeRelativePath(queue[0].path) && normalizedPath !in visited
    requires EscapesRoot(o.root, Resolve(o.root, normalizedPath))
    ensures WalksTo(fs, o, edges, decode, queue[1..], visited + {normalizedPath}, skipped + [normalizedPath + OutsideRootSuffix], files, outcome)
  {
    assert Advance(fs, o, edges, decode, queue, visited, skipped, files)
        == Ok(WalkState(queue[1..], visited + {normalizedPath}, skipped + [normalizedPath + OutsideRootSuffix], files));
    assert Walk(fs, o, edges, decode, queue, visited, skipped, files) == outcome;
  }

  /** A new front path inside the root that cannot be read ends the walk with the read's error. */
  lemma WalkFails(
    fs: FileSystem, o: CollectContextOptions, edges: ContextFile -> seq<string>, decode: seq<bv8> -> string,
    queue: seq<QueueEntry>, visited: set<string>, skipped: seq<string>, files: seq<ContextFile>, normalizedPath: string,
    outcome: Result<CollectResult>)
    requires WalksTo(fs, o, edges, decode, queue, visited, skipped, files, outcome)
    requires |queue| > 0 && |files| < o.maxFiles
    requires normalizedPath == NormalizeRelativePath(queue[0].path) && normalizedPath !in visited
    requires !EscapesRoot(o.root, Resolve(o.root, normalizedPath))
    requires EntryFor(fs, o.root, decode, queue[0], normalizedPath).Err?
    ensures outcome == Err(EntryFor(fs, o.root, decode, queue[0], normalizedPath).message)
  {
    assert Advance(fs, o, edges, decode, queue, visited, skipped, files) == Err(EntryFor(fs, o.root, decode, queue[0], normalizedPath).message);
    assert Walk(fs, o, edges, decode, queue, visited, skipped, files) == outcome;
  }

  /** A new front path inside the root is emitted as its entry, whose followed dependencies are queued. */
  lemma WalkEmits(
    fs: FileSystem, o: CollectContextOptions, edges: ContextFile -> seq<string>, decode: seq<bv8> -> string,
    queue: seq<QueueEntry>, visited: set<string>, skipped: seq<string>, files: seq<ContextFile>, normalizedPath: string,
    queue': seq<QueueEntry>, files': seq<ContextFile>, outcome: Result<CollectResult>)
    requires WalksTo(fs, o, edges, decode, queue, visited, skipped, files, outcome)
    requires |queue| > 0 && |files| < o.maxFiles
    requires normalizedPath == NormalizeRelativePath(queue[0].path) && normalizedPath !in visited
    requires !EscapesRoot(o.root, Resolve(o.root, normalizedPath))
    requires |files'| == |files| + 1 && files'[..|files|] == files
    requires EntryFor(fs, o.root, decode, queue[0], normalizedPath) == Ok(files'[|files|])
    requires queue' == queue[1..] + DependencyEntries(FollowedDependencies(edges, o, files'[|files|], |files| + |queue|), files'[|files|].depth + 1)
    ensures WalksTo(fs, o, edges, decode, queue', visited + {normalizedPath}, skipped, files', outcome)
  {
    var entry := files'[|files|];
    assert files' == files + [entry];
    assert Advance(fs, o, edges, decode, queue, visited, skipped, files) == Ok(WalkState(queue', visited + {normalizedPath}, skipped, files'));
    assert Walk(fs, o, edges, decode, queue, visited, skipped, files) == outcome;
  }

  /** Two dependency functions that both give every entry its dependencies follow the same ones from it. */
  lemma FollowedAlongEdges(
    fs: FileSystem, o: CollectContextOptions, scan: string -> seq<string>, edges: ContextFile -> seq<string>,
    other: ContextFile -> seq<string>, entry: ContextFile, used: nat)
    requires EdgesOf(fs, o.root, scan, edges) && EdgesOf(fs, o.root, scan, other)
    ensures FollowedDependencies(edges, o, entry, used) == FollowedDependencies(other, o, entry, used)
  {
    assert edges(entry) == DependenciesOf(fs, o.root, scan, entry) == other(entry);
  }

  /** The walk only looks at the dependencies of each entry, so two dependency functions that agree give the same walk. */
  lemma {:induction false} WalkAlongEdges(
    fs: FileSystem, o: CollectContextOptions, scan: string -> seq<string>, edges: ContextFile -> seq<string>,
    other: ContextFile -> seq<string>,
    decode: seq<bv8> -> string, queue: seq<QueueEntry>, visited: set<string>, skipped: seq<string>, files: seq<ContextFile>)
    requires IsNormal(o.root) && EdgesOf(fs, o.root, scan, edges) && EdgesOf(fs, o.root, scan, other)
    ensures Walk(fs, o, edges, decode, queue, visited, skipped, files) == Walk(fs, o, other, decode, queue, visited, skipped, files)
    decreases o.maxFiles - |files|, |queue|
  {
    if |queue| > 0 && |files| < o.maxFiles {
      AdvanceAlongEdges(fs, o, scan, edges, other, decode, queue, visited, skipped, files);
      var next := Advance(fs, o, edges, decode, queue, visited, skipped, files);
      if next.Ok? {
        WalkAlongEdges(fs, o, scan, edges, other, decode, next.value.queue, next.value.visited, next.value.skipped, next.value.files);
      }
    }
  }

  /** One pass looks at the dependencies of the emitted entry only, so it is the same along two such functions. */
  lemma AdvanceAlongEdges(
    fs: FileSystem, o: CollectContextOptions, scan: string -> seq<string>, edges: ContextFile -> seq<string>,
    other: ContextFile -> seq<string>,
    decode: seq<bv8> -> string, queue: seq<QueueEntry>, visited: set<string>, skipped: seq<string>, files: seq<ContextFile>)
    requires IsNormal(o.root) && EdgesOf(fs, o.root, scan, edges) && EdgesOf(fs, o.root, scan, other) && |queue| > 0
    ensures Advance(fs, o, edges, decode, queue, visited, skipped, files) == Advance(fs, o, other, decode, queue, visited, skipped, files)
  {
    var normalizedPath := NormalizeRelativePath(queue[0].path);
    var read := EntryFor(fs, o.root, decode, queue[0], normalizedPath);
    if normalizedPath !in visited && !EscapesRoot(o.root, Resolve(o.root, normalizedPath)) && read.Ok? {
      FollowedAlongEdges(fs, o, scan, edges, other, read.value, |files| + |queue|);
    }
  }

  /** `Collect` is the walk from the changed files along any dependency function that gives each entry its dependencies. */
  lemma CollectAlongEdges(
    fs: FileSystem, o: CollectContextOptions, scan: string -> seq<string>, edges: ContextFile -> seq<string>, decode: seq<bv8> -> string)
    requires IsNormal(o.root) && EdgesOf(fs, o.root, scan, edges)
    ensures WalksTo(fs, o, edges, decode, InitialQueue(o.changedFiles), {}, [], [], Collect(fs, o, scan, decode))
  {
    DependencyEdgesApply(fs, o.root, scan);
    WalkAlongEdges(fs, o, scan, edges, DependencyEdges(fs, o.root, scan), decode, InitialQueue(o.changedFiles), {}, [], []);
  }

  // ---------------------------------------------------------------------------
  // The loop of `CollectContextFiles`, pass by pass

  /**
   * A state of the loop in `CollectContextFiles`: it keeps `WalkInvariant` and
   * `Coverage`, and the walk from it gives `outcome`. The three are stated for the
   * queue named in the walk from this state, so a proof sees them only where it names
   * that walk, as the lemmas below do.
   */
  ghost predicate Walking(
    fs: FileSystem, o: CollectContextOptions, scan: string -> seq<string>, edges: ContextFile -> seq<string>,
    decode: seq<bv8> -> string, queue: seq<QueueEntry>, visited: set<string>, skipped: seq<string>, files: seq<ContextFile>,
    consumed: nat, queueOrigin: seq<nat>, fileOrigin: seq<nat>, capped: bool, popped: nat, enqueued: nat,
    outcome: Result<CollectResult>)
  {
    && IsNormal(o.root)
    && EdgesOf(fs, o.root, scan, edges)
    && |queueOrigin| == |queue|
    && forall q {:trigger Walk(fs, o, edges, decode, q, visited, skipped, files)} :: q == queue ==>
         && WalkInvariant(fs, o, edges, decode, q, visited, skipped, files, consumed, queueOrigin, fileOrigin)
         && Coverage(edges, o, q, visited, files, capped, popped, enqueued)
         && Walk(fs, o, edges, decode, q, visited, skipped, files) == outcome
  }

  /** Before the first pass only the changed files are queued, and the walk from there is `Collect`. */
  lemma WalkingStarts(
    fs: FileSystem, o: CollectContextOptions, scan: string -> seq<string>, edges: ContextFile -> seq<string>,
    decode: seq<bv8> -> string, queueOrigin: seq<nat>)
    requires IsNormal(o.root) && EdgesOf(fs, o.root, scan, edges)
    requires |queueOrigin| == |o.changedFiles|
    ensures Walking(fs, o, scan, edges, decode, InitialQueue(o.changedFiles), {}, [], [], 0, queueOrigin, [], false, 0, 0,
      Collect(fs, o, scan, decode))
  {
    var queue := InitialQueue(o.changedFiles);
    CollectAlongEdges(fs, o, scan, edges, decode);
    assert Walk(fs, o, edges, decode, queue, {}, [], []) == Collect(fs, o, scan, decode);
    CoverageStart(edges, o, queue);
    assert WalkInvariant(fs, o, edges, decode, queue, {}, [], [], 0, queueOrigin, []);
  }

  /** Dropping a path already visited keeps the loop walking to the same outcome. */
  lemma RevisitPass(
    fs: FileSystem, o: CollectContextOptions, scan: string -> seq<string>, edges: ContextFile -> seq<string>,
    decode: seq<bv8> -> string, queue: seq<QueueEntry>, visited: set<string>, skipped: seq<string>, files: seq<ContextFile>,
    consumed: nat, queueOrigin: seq<nat>, fileOrigin: seq<nat>, capped: bool, popped: nat, enqueued: nat,
    outcome: Result<CollectResult>)
    requires Walking(fs, o, scan, edges, decode, queue, visited, skipped, files, consumed, queueOrigin, fileOrigin,
      capped, popped, enqueued, outcome)
    requires |queue| > 0 && |files| < o.maxFiles && NormalizeRelativePath(queue[0].path) in visited
    ensures Walking(fs, o, scan, edges, decode, queue[1..], visited, skipped, files, NextConsumed(o, consumed),
      queueOrigin[1..], fileOrigin, capped, popped + 1, enqueued, outcome)
  {
    assert Walk(fs, o, edges, decode, queue, visited, skipped, files) == outcome;
    RevisitStep(fs, o, edges, decode, queue, visited, skipped, files, consumed, queueOrigin, fileOrigin);
    CoveragePop(fs, o, scan, edges, queue, visited, visited, files, capped, popped, enqueued);
    WalkRevisits(fs, o, edges, decode, queue, visited, skipped, files, outcome);
    assert Walk(fs, o, edges, decode, queue[1..], visited, skipped, files) == outcome;
  }

  /** Skipping a path outside the root keeps the loop walking to the same outcome. */
  lemma SkipPass(
    fs: FileSystem, o: CollectContextOptions, scan: string -> seq<string>, edges: ContextFile -> seq<string>,
    decode: seq<bv8> -> string, queue: seq<QueueEntry>, visited: set<string>, skipped: seq<string>, files: seq<ContextFile>,
    consumed: nat, queueOrigin: seq<nat>, fileOrigin: seq<nat>, capped: bool, popped: nat, enqueued: nat,
    normalizedPath: string, outcome: Result<CollectResult>)
    requires Walking(fs, o, scan, edges, decode, queue, visited, skipped, files, consumed, queueOrigin, fileOrigin,
      capped, popped, enqueued, outcome)
    requires |queue| > 0 && |files| < o.maxFiles
    requires normalizedPath == NormalizeRelativePath(queue[0].path) && normalizedPath !in visited
    requires EscapesRoot(o.root, Resolve(o.root, normalizedPath))
    ensures Walking(fs, o, scan, edges, decode, queue[1..], visited + {normalizedPath},
      skipped + [normalizedPath + OutsideRootSuffix], files, NextConsumed(o, consumed), queueOrigin[1..], fileOrigin,
      capped, popped + 1, enqueued, outcome)
  {
    assert Walk(fs, o, edges, decode, queue, visited, skipped, files) == outcome;
    SkipStep(fs, o, edges, decode, queue, visited, skipped, files, consumed, queueOrigin, fileOrigin);
    CoveragePop(fs, o, scan, edges, queue, visited, visited + {normalizedPath}, files, capped, popped, enqueued);
    WalkSkips(fs, o, edges, decode, queue, visited, skipped, files, normalizedPath, outcome);
    assert Walk(fs, o, edges, decode, queue[1..], visited + {normalizedPath},
      skipped + [normalizedPath + OutsideRootSuffix], files) == outcome;
  }

  /** Before an entry is emitted, the state keeps `WalkInvariant`. */
  lemma WalkingFront(
    fs: FileSystem, o: CollectContextOptions, scan: string -> seq<string>, edges: ContextFile -> seq<string>,
    decode: seq<bv8> -> string, queue: seq<QueueEntry>, visited: set<string>, skipped: seq<string>, files: seq<ContextFile>,
    consumed: nat, queueOrigin: seq<nat>, fileOrigin: seq<nat>, capped: bool, popped: nat, enqueued: nat,
    outcome: Result<CollectResult>)
    requires Walking(fs, o, scan, edges, decode, queue, visited, skipped, files, consumed, queueOrigin, fileOrigin,
      capped, popped, enqueued, outcome)
    ensures EdgesOf(fs, o.root, scan, edges)
    ensures WalkInvariant(fs, o, edges, decode, queue, visited, skipped, files, consumed, queueOrigin, fileOrigin)
  {
    assert Walk(fs, o, edges, decode, queue, visited, skipped, files) == outcome;
  }

  /** Reading a directory at the front ends the walk with the read's error. */
  lemma FailPass(
    fs: FileSystem, o: CollectContextOptions, scan: string -> seq<string>, edges: ContextFile -> seq<string>,
    decode: seq<bv8> -> string, queue: seq<QueueEntry>, visited: set<string>, skipped: seq<string>, files: seq<ContextFile>,
    consumed: nat, queueOrigin: seq<nat>, fileOrigin: seq<nat>, capped: bool, popped: nat, enqueued: nat,
    normalizedPath: string, outcome: Result<CollectResult>)
    requires Walking(fs, o, scan, edges, decode, queue, visited, skipped, files, consumed, queueOrigin, fileOrigin,
      capped, popped, enqueued, outcome)
    requires |queue| > 0 && |files| < o.maxFiles
    requires normalizedPath == NormalizeRelativePath(queue[0].path) && normalizedPath !in visited
    requires !EscapesRoot(o.root, Resolve(o.root, normalizedPath))
    requires EntryFor(fs, o.root, decode, queue[0], normalizedPath).Err?
    ensures outcome == Err(EntryFor(fs, o.root, decode, queue[0], normalizedPath).message)
  {
    assert Walk(fs, o, edges, decode, queue, visited, skipped, files) == outcome;
    WalkFails(fs, o, edges, decode, queue, visited, skipped, files, normalizedPath, outcome);
  }

  /** Emitting the front entry keeps the loop walking to the same outcome. */
  lemma EmitPass(
    fs: FileSystem, o: CollectContextOptions, scan: string -> seq<string>, edges: ContextFile -> seq<string>,
    decode: seq<bv8> -> string, queue: seq<QueueEntry>, visited: set<string>, skipped: seq<string>, files: seq<ContextFile>,
    consumed: nat, queueOrigin: seq<nat>, fileOrigin: seq<nat>, capped: bool, popped: nat, enqueued: nat,
    normalizedPath: string, queue': seq<QueueEntry>, files': seq<ContextFile>, queueOrigin': seq<nat>, fileOrigin': seq<nat>,
    capped': bool, popped': nat, enqueued': nat, outcome: Result<CollectResult>)
    requires Walking(fs, o, scan, edges, decode, queue, visited, skipped, files, consumed, queueOrigin, fileOrigin,
      capped, popped, enqueued, outcome)
    requires |queue| > 0 && |files| < o.maxFiles
    requires normalizedPath == NormalizeRelativePath(queue[0].path) && normalizedPath !in visited
    requires !EscapesRoot(o.root, Resolve(o.root, normalizedPath))
    requires |files'| == |files| + 1 && files'[..|files|] == files
    requires EntryFor(fs, o.root, decode, queue[0], normalizedPath) == Ok(files'[|files|])
    requires queue' == queue[1..] + DependencyEntries(FollowedDependencies(edges, o, files'[|files|], |files| + |queue|), files'[|files|].depth + 1)
    requires WalkInvariant(fs, o, edges, decode, queue', visited + {normalizedPath}, skipped, files',
      NextConsumed(o, consumed), queueOrigin', fileOrigin')
    requires capped' == (capped || ExpansionCapped(edges, o, files'[|files|], |files| + |queue|)) && popped' == popped + 1
    requires enqueued' == enqueued + |FollowedDependencies(edges, o, files'[|files|], |files| + |queue|)|
    ensures Walking(fs, o, scan, edges, decode, queue', visited + {normalizedPath}, skipped, files',
      NextConsumed(o, consumed), queueOrigin', fileOrigin', capped', popped', enqueued', outcome)
  {
    assert Walk(fs, o, edges, decode, queue, visited, skipped, files) == outcome;
    CoverageEmit(fs, o, scan, edges, queue, visited, files, capped, popped, enqueued, queue', files', normalizedPath);
    WalkEmits(fs, o, edges, decode, queue, visited, skipped, files, normalizedPath, queue', files', outcome);
    assert Walk(fs, o, edges, decode, queue', visited + {normalizedPath}, skipped, files') == outcome;
  }

  /** When the loop stops, its state is the outcome, and that outcome is `Collected`. */
  lemma WalkingStops(
    fs: FileSystem, o: CollectContextOptions, scan: string -> seq<string>, edges: ContextFile -> seq<string>,
    decode: seq<bv8> -> string, queue: seq<QueueEntry>, visited: set<string>, skipped: seq<string>, files: seq<ContextFile>,
    consumed: nat, queueOrigin: seq<nat>, fileOrigin: seq<nat>, capped: bool, popped: nat, enqueued: nat,
    outcome: Result<CollectResult>)
    requires Walking(fs, o, scan, edges, decode, queue, visited, skipped, files, consumed, queueOrigin, fileOrigin,
      capped, popped, enqueued, outcome)
    requires |queue| == 0 || |files| >= o.maxFiles
    ensures outcome == Ok(CollectResult(files, visited, skipped))
    ensures visited == PathsOf(files) + SkippedPaths(skipped)
    ensures Collected(fs, o, scan, decode, files, skipped)
    ensures !capped && |files| < o.maxFiles ==> AllFollowed(DependencyEdges(fs, o.root, scan), o, files, visited)
    ensures capped ==> o.maxFiles <= |o.changedFiles| + DependencyCount(DependencyEdges(fs, o.root, scan), o, files)
  {
    assert Walk(fs, o, edges, decode, queue, visited, skipped, files) == outcome;
    WalkStops(fs, o, edges, decode, queue, visited, skipped, files, outcome);
    WalkResult(fs, o, scan, edges, decode, queue, visited, skipped, files, consumed, queueOrigin, fileOrigin,
      capped, popped, enqueued);
  }
}
