/**
 * The walk of src/lib/context.ts itself: the collector's loop and its inner loop over
 * the dependencies of an emitted file, proved against the walk invariant of `Context`.
 */
module ContextCollector {
  import opened Wrappers
  import opened Strings
  import opened Paths
  import opened Context

  /**
   * The inner loop of the collector: queue the dependencies of the entry just emitted,
   * one level below it, in order, stopping as soon as emitted and queued entries
   * together reach `maxFiles`: exactly the first `Room` of them are queued.
   */
  method EnqueueDependencies(
    ghost fs: FileSystem, options: CollectContextOptions, ghost edges: ContextFile -> seq<string>, ghost decode: seq<bv8> -> string,
    queue: seq<QueueEntry>, ghost visited: set<string>, ghost skipped: seq<string>, files: seq<ContextFile>,
    ghost consumed: nat, ghost queueOrigin: seq<nat>, ghost fileOrigin: seq<nat>,
    parent: ContextFile, dependencies: seq<string>)
    returns (newQueue: seq<QueueEntry>, ghost newOrigin: seq<nat>)
    requires WalkInvariant(fs, options, edges, decode, queue, visited, skipped, files, consumed, queueOrigin, fileOrigin)
    requires |files| > 0 && files[|files| - 1] == parent && parent.depth < options.followDepth
    requires forall k :: 0 <= k < |dependencies| ==>
      Linked(edges, parent, dependencies[k], parent.depth + 1) && '\\' !in dependencies[k]
    requires WithinLevel(queue, parent.depth)
    ensures WalkInvariant(fs, options, edges, decode, newQueue, visited, skipped, files, consumed, newOrigin, fileOrigin)
    ensures newQueue == queue + DependencyEntries(Capped(dependencies, Room(options.maxFiles, |files| + |queue|)), parent.depth + 1)
  {
    newQueue, newOrigin := queue, queueOrigin;
    var i := 0;
    while i < |dependencies|
      invariant 0 <= i <= |dependencies|
      invariant WalkInvariant(fs, options, edges, decode, newQueue, visited, skipped, files, consumed, newOrigin, fileOrigin)
      invariant WithinLevel(newQueue, parent.depth)
      invariant newQueue == queue + DependencyEntries(dependencies[..i], parent.depth + 1)
      invariant i <= Room(options.maxFiles, |files| + |queue|)
    {
      if |files| + |newQueue| >= options.maxFiles {
        break;
      }
      EnqueueStep(fs, options, edges, decode, newQueue, visited, skipped, files, consumed, newOrigin, fileOrigin,
        parent, dependencies[i]);
      assert DependencyEntries(dependencies[..i + 1], parent.depth + 1)
        == DependencyEntries(dependencies[..i], parent.depth + 1) + [QueueEntry(dependencies[i], parent.depth + 1, Dependency)];
      newQueue := newQueue + [QueueEntry(dependencies[i], parent.depth + 1, Dependency)];
      newOrigin := newOrigin + [|files| - 1];
      i := i + 1;
    }
    assert dependencies[..|dependencies|] == dependencies;
  }

  /**
   * The entry for a queued path inside the root, filled in from what reading it gives:
   * a note for a missing or binary file, the (possibly truncated) text otherwise.
   * Reading a directory is an error.
   */
  method ReadEntry(
    fs: FileSystem, root: Path, decode: seq<bv8> -> string, current: QueueEntry, normalizedPath: string, absolutePath: Path)
    returns (r: Result<ContextFile>)
    requires IsNormal(root) && '\\' !in normalizedPath
    requires absolutePath == Resolve(root, normalizedPath) && !EscapesRoot(root, absolutePath)
    ensures r.Err? <==> StatOf(fs, absolutePath) == Directory
    ensures r.Err? ==> r.message == DirectoryReadError
    ensures r.Ok? ==> r.value.path == normalizedPath && r.value.depth == current.depth && r.value.reason == current.reason
    ensures r.Ok? ==> EntryMatches(fs, root, decode, r.value)
    ensures r == EntryFor(fs, root, decode, current, normalizedPath)
  {
    var entry := ContextFile(normalizedPath, current.depth, current.reason, false, None, None);
    var readResult := SafelyReadTextFile(fs, absolutePath, decode);
    if readResult.Err? {
      return Err(readResult.message);
    }
    if readResult.value.Missing? {
      entry := entry.(note := Some(MissingNote));
    } else if readResult.value.Binary? {
      entry := entry.(note := Some(BinaryNote));
    } else {
      entry := entry.(content := Some(readResult.value.content), truncated := readResult.value.truncated);
    }
    return Ok(entry);
  }

  /** `isImportableFile`, with its verdict stated through `ImportableVerdict`. */
  method ImportableTest(p: Path) returns (importable: bool)
    ensures ImportableVerdict(p, importable)
  {
    importable := IsImportableFile(p);
  }

  /** The dependencies read from the text of an entry that is followed: the walk's edges out of it. */
  method EntryDependencies(
    fs: FileSystem, root: Path, scan: string -> seq<string>, ghost edges: ContextFile -> seq<string>,
    entry: ContextFile, absolutePath: Path, content: string)
    returns (dependencies: seq<string>)
    requires IsNormal(root) && EdgesOf(fs, root, scan, edges)
    requires entry.content == Some(content) && absolutePath == Resolve(root, entry.path)
    requires ImportableVerdict(absolutePath, true)
    ensures dependencies == edges(entry)
    ensures forall k :: 0 <= k < |dependencies| ==>
      Linked(edges, entry, dependencies[k], entry.depth + 1) && '\\' !in dependencies[k]
  {
    dependencies := ExtractRelativeDependencies(fs, root, scan, absolutePath, content);
    assert IsImportableFile(absolutePath) && edges(entry) == DependenciesOf(fs, root, scan, entry);
    FoundDependencies(fs, root, scan, edges, entry, content, dependencies);
  }

  /**
   * Queue what the entry just emitted leads to: the dependencies of a text file below
   * the depth limit with an importable extension, up to the cap; nothing otherwise.
   */
  method FollowEntry(
    fs: FileSystem, options: CollectContextOptions, scan: string -> seq<string>, ghost edges: ContextFile -> seq<string>,
    ghost decode: seq<bv8> -> string,
    queue: seq<QueueEntry>, ghost visited: set<string>, ghost skipped: seq<string>, files: seq<ContextFile>,
    ghost consumed: nat, ghost queueOrigin: seq<nat>, ghost fileOrigin: seq<nat>,
    entry: ContextFile, absolutePath: Path, ghost used: nat)
    returns (newQueue: seq<QueueEntry>, ghost newOrigin: seq<nat>)
    requires |files| > 0 && files[|files| - 1] == entry && WithinLevel(queue, entry.depth)
    requires WalkInvariant(fs, options, edges, decode, queue, visited, skipped, files, consumed, queueOrigin, fileOrigin)
    requires EdgesOf(fs, options.root, scan, edges)
    requires absolutePath == Resolve(options.root, entry.path) && used == |files| + |queue|
    ensures WalkInvariant(fs, options, edges, decode, newQueue, visited, skipped, files, consumed, newOrigin, fileOrigin)
    ensures newQueue == queue + DependencyEntries(FollowedDependencies(edges, options, entry, used), entry.depth + 1)
  {
    newQueue, newOrigin := queue, queueOrigin;
    // Only text files below the depth limit with an importable extension are followed.
    var importable := ImportableTest(absolutePath);
    if entry.content.Some? && entry.depth < options.followDepth && importable {
      var dependencies := EntryDependencies(fs, options.root, scan, edges, entry, absolutePath, entry.content.value);
      newQueue, newOrigin := EnqueueDependencies(fs, options, edges, decode, queue, visited, skipped, files, consumed,
        queueOrigin, fileOrigin, entry, dependencies);
      ExpansionFollowed(options, edges, entry, used, dependencies, queue, newQueue);
    } else {
      ExpansionUnfollowed(fs, options, scan, edges, entry, used, absolutePath, importable, queue);
    }
  }

  /**
   * One pass of the collector's loop for a front entry that is new and inside the root:
   * read it, emit its entry, and queue what it leads to. Reading a directory is
   * reported as `failure`.
   */
  method EmitFront(
    fs: FileSystem, options: CollectContextOptions, scan: string -> seq<string>, decode: seq<bv8> -> string,
    ghost edges: ContextFile -> seq<string>,
    queue: seq<QueueEntry>, ghost visited: set<string>, ghost skipped: seq<string>, files: seq<ContextFile>,
    ghost consumed: nat, ghost queueOrigin: seq<nat>, ghost fileOrigin: seq<nat>,
    normalizedPath: string, absolutePath: Path)
    returns (failure: Option<string>, newQueue: seq<QueueEntry>, newFiles: seq<ContextFile>,
      ghost newQueueOrigin: seq<nat>, ghost newFileOrigin: seq<nat>)
    requires |queue| > 0 && |files| < options.maxFiles
    requires WalkInvariant(fs, options, edges, decode, queue, visited, skipped, files, consumed, queueOrigin, fileOrigin)
    requires EdgesOf(fs, options.root, scan, edges)
    requires normalizedPath == NormalizeRelativePath(queue[0].path) && normalizedPath !in visited
    requires absolutePath == Resolve(options.root, normalizedPath) && !EscapesRoot(options.root, absolutePath)
    ensures failure.Some? <==> StatOf(fs, absolutePath) == Directory
    ensures failure.Some? ==> failure.value == DirectoryReadError
    ensures failure.None? ==> |newFiles| == |files| + 1 && newFiles[..|files|] == files
    ensures failure.None? ==> newFiles[|files|].path == normalizedPath && newFiles[|files|].depth == queue[0].depth
    ensures failure.Some? ==> EntryFor(fs, options.root, decode, queue[0], normalizedPath) == Err(failure.value)
    ensures failure.None? ==> EntryFor(fs, options.root, decode, queue[0], normalizedPath) == Ok(newFiles[|files|])
    ensures failure.None? ==> WalkInvariant(fs, options, edges, decode, newQueue, visited + {normalizedPath}, skipped,
      newFiles, NextConsumed(options, consumed), newQueueOrigin, newFileOrigin)
    ensures failure.None? ==>
      newQueue == queue[1..] + DependencyEntries(FollowedDependencies(edges, options, newFiles[|files|], |files| + |queue|), newFiles[|files|].depth + 1)
  {
    var read := ReadEntry(fs, options.root, decode, queue[0], normalizedPath, absolutePath);
    if read.Err? {
      return Some(read.message), queue, files, queueOrigin, fileOrigin;
    }
    var entry := read.value;
    EmitStep(fs, options, edges, decode, queue, visited, skipped, files, consumed, queueOrigin, fileOrigin, entry);
    failure, newFiles := None, files + [entry];
    newFileOrigin := fileOrigin + [FrontOrigin(options, consumed, queueOrigin)];
    newQueue, newQueueOrigin := FollowEntry(fs, options, scan, edges, decode, queue[1..], visited + {normalizedPath},
      skipped, newFiles, NextConsumed(options, consumed), queueOrigin[1..], newFileOrigin, entry, absolutePath, |files| + |queue|);
    assert newFiles[|files|] == entry;
  }

  /** The dependencies of each entry, as the walk sees them: only through `EdgesOf`. */
  ghost method WalkEdges(fs: FileSystem, root: Path, scan: string -> seq<string>) returns (edges: ContextFile -> seq<string>)
    ensures EdgesOf(fs, root, scan, edges)
  {
    edges := DependencyEdges(fs, root, scan);
    DependencyEdgesApply(fs, root, scan);
  }

  /**
   * `collectContextFiles`: a breadth-first walk from the changed files along resolved
   * relative imports, which delivers what `Collected` states. `capped` tells whether
   * the cap on queued entries cut off some dependency; it can only do so once the
   * changed files and the dependencies found reach `maxFiles`, and without it every
   * dependency of an entry below the depth limit is visited when the walk stops below
   * `maxFiles`. Reading a directory aborts the walk. The result is `Collect`: the
   * entries, the visited paths and the skipped paths are exactly those of the walk.
   */
  method CollectContextFiles(
    fs: FileSystem, options: CollectContextOptions, scan: string -> seq<string>, decode: seq<bv8> -> string)
    returns (r: Result<CollectResult>, ghost capped: bool)
    requires IsNormal(options.root)
    ensures r == Collect(fs, options, scan, decode)
    ensures r.Err? ==> r.message == DirectoryReadError
    ensures r.Ok? ==> r.value.visited == PathsOf(r.value.files) + SkippedPaths(r.value.skipped)
    ensures r.Ok? ==> Collected(fs, options, scan, decode, r.value.files, r.value.skipped)
    ensures r.Ok? && !capped && |r.value.files| < options.maxFiles ==>
      AllFollowed(DependencyEdges(fs, options.root, scan), options, r.value.files, r.value.visited)
    ensures r.Ok? && capped ==> options.maxFiles <= |options.changedFiles| + DependencyCount(DependencyEdges(fs, options.root, scan), options, r.value.files)
  {
    var root, changedFiles, followDepth, maxFiles := options.root, options.changedFiles, options.followDepth, options.maxFiles;
    var queue: seq<QueueEntry> := [];
    for k := 0 to |changedFiles|
      invariant |queue| == k
      invariant forall j :: 0 <= j < k ==> queue[j] == QueueEntry(changedFiles[j], 0, Changed)
    {
      queue := queue + [QueueEntry(changedFiles[k], 0, Changed)];
    }
    var visited: set<string> := {};
    var skipped: seq<string> := [];
    var files: seq<ContextFile> := [];
    // The changed files not yet taken from the queue are changedFiles[consumed..].
    ghost var consumed: nat := 0;
    // Where each queued dependency and each emitted entry comes from (see QueueWellFormed, FromOrigin).
    ghost var queueOrigin: seq<nat> := seq(|queue|, j => 0);
    ghost var fileOrigin: seq<nat> := [];
    // The dependencies followed from each emitted entry.
    ghost var edges := WalkEdges(fs, root, scan);
    // What the walk from the changed files gives; every state of the loop walks on to it.
    ghost var outcome := Collect(fs, options, scan, decode);
    // How many entries have left the queue, and how many dependencies have entered it.
    ghost var popped: nat, enqueued: nat := 0, 0;
    capped := false;
    assert queue == InitialQueue(changedFiles);
    WalkingStarts(fs, options, scan, edges, decode, queueOrigin);
    while |queue| > 0 && |files| < maxFiles
      invariant Walking(fs, options, scan, edges, decode, queue, visited, skipped, files, consumed, queueOrigin, fileOrigin,
        capped, popped, enqueued, outcome)
      decreases maxFiles - |files|, |queue|
    {
      var current := queue[0];
      var normalizedPath := NormalizeRelativePath(current.path);
      if normalizedPath in visited {
        RevisitPass(fs, options, scan, edges, decode, queue, visited, skipped, files, consumed, queueOrigin, fileOrigin,
          capped, popped, enqueued, outcome);
        popped := popped + 1;
        queue, queueOrigin, consumed := queue[1..], queueOrigin[1..], NextConsumed(options, consumed);
        continue;
      }
      var absolutePath := Resolve(root, normalizedPath);
      var relativeWithinRoot := RelativeString(root, absolutePath);
      if StartsWith(relativeWithinRoot, "..") {
        SkipPass(fs, options, scan, edges, decode, queue, visited, skipped, files, consumed, queueOrigin, fileOrigin,
          capped, popped, enqueued, normalizedPath, outcome);
        popped := popped + 1;
        queue, queueOrigin, consumed := queue[1..], queueOrigin[1..], NextConsumed(options, consumed);
        visited := visited + {normalizedPath};
        skipped := skipped + [normalizedPath + OutsideRootSuffix];
        continue;
      }
      WalkingFront(fs, options, scan, edges, decode, queue, visited, skipped, files, consumed, queueOrigin, fileOrigin,
        capped, popped, enqueued, outcome);
      var failure, nextQueue, nextFiles;
      ghost var nextQueueOrigin, nextFileOrigin;
      failure, nextQueue, nextFiles, nextQueueOrigin, nextFileOrigin := EmitFront(fs, options, scan, decode, edges,
        queue, visited, skipped, files, consumed, queueOrigin, fileOrigin, normalizedPath, absolutePath);
      if failure.Some? {
        FailPass(fs, options, scan, edges, decode, queue, visited, skipped, files, consumed, queueOrigin, fileOrigin,
          capped, popped, enqueued, normalizedPath, outcome);
        return Err(failure.value), capped;
      }
      ghost var nextCapped := capped || ExpansionCapped(edges, options, nextFiles[|files|], |files| + |queue|);
      ghost var nextEnqueued := enqueued + |FollowedDependencies(edges, options, nextFiles[|files|], |files| + |queue|)|;
      ghost var nextConsumed := NextConsumed(options, consumed);
      EmitPass(fs, options, scan, edges, decode, queue, visited, skipped, files, consumed, queueOrigin, fileOrigin,
        capped, popped, enqueued, normalizedPath, nextQueue, nextFiles, nextQueueOrigin, nextFileOrigin,
        nextCapped, popped + 1, nextEnqueued, outcome);
      capped, popped, enqueued := nextCapped, popped + 1, nextEnqueued;
      queue, files := nextQueue, nextFiles;
      visited := visited + {normalizedPath};
      queueOrigin, fileOrigin, consumed := nextQueueOrigin, nextFileOrigin, nextConsumed;
    }
    r := Ok(CollectResult(files, visited, skipped));
    WalkingStops(fs, options, scan, edges, decode, queue, visited, skipped, files, consumed, queueOrigin, fileOrigin,
      capped, popped, enqueued, outcome);
  }
}
