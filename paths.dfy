/**
 * POSIX paths as lists of segments, the parts of Node's `path` module the context
 * collector uses (`resolve`, `relative`, `join`, `dirname`, `extname`), and the
 * working tree as an abstract file system.
 */
module Paths {
  import opened Strings

  /** An absolute, normalised path: its segments below "/" ("/" itself is `[]`). */
  type Path = seq<string>

  predicate IsSegment(s: string) {
    s != "" && s != "." && s != ".." && '/' !in s
  }

  predicate IsNormal(p: Path) {
    forall i :: 0 <= i < |p| ==> IsSegment(p[i])
  }

  /** Segments that can be resolved one by one: none holds a "/". */
  predicate NoSlash(segments: seq<string>) {
    forall k :: 0 <= k < |segments| ==> '/' !in segments[k]
  }

  /** One segment of `path.resolve`: "" and "." stay, ".." climbs (never above "/"). */
  function Step(p: Path, segment: string): (r: Path)
    requires IsNormal(p) && '/' !in segment
    ensures IsNormal(r)
  {
    if segment == "" || segment == "." then p
    else if segment == ".." then (if p == [] then [] else p[..|p| - 1])
    else p + [segment]
  }

  function StepAll(p: Path, segments: seq<string>): (r: Path)
    requires IsNormal(p) && NoSlash(segments)
    ensures IsNormal(r)
    decreases |segments|
  {
    if segments == [] then p else StepAll(Step(p, segments[0]), segments[1..])
  }

  /** `path.resolve(base, s)`: an absolute `s` starts again from "/". */
  function Resolve(base: Path, s: string): (r: Path)
    requires IsNormal(base)
    ensures IsNormal(r)
  {
    StepAll(if |s| > 0 && s[0] == '/' then [] else base, Split(s, '/'))
  }

  /** The rendering of an absolute path as a string ("/" for the file-system root). */
  function PathString(p: Path): string {
    "/" + Join(p, "/")
  }

  /** Length of the longest common prefix of two paths. */
  function CommonPrefixLength(a: Path, b: Path): (k: nat)
    ensures k <= |a| && k <= |b| && a[..k] == b[..k]
    ensures k < |a| && k < |b| ==> a[k] != b[k]
  {
    if a == [] || b == [] || a[0] != b[0] then 0
    else
      var k := CommonPrefixLength(a[1..], b[1..]);
      assert a[..k + 1] == [a[0]] + a[1..][..k];
      assert b[..k + 1] == [b[0]] + b[1..][..k];
      k + 1
  }

  function Ups(n: nat): (r: seq<string>)
    ensures |r| == n && forall i :: 0 <= i < n ==> r[i] == ".."
  {
    if n == 0 then [] else Ups(n - 1) + [".."]
  }

  /** The segments of `path.relative(from, to)`: climb out of `from`, then descend into `to`. */
  function Relative(from: Path, to: Path): seq<string> {
    var k := CommonPrefixLength(from, to);
    Ups(|from| - k) + to[k..]
  }

  /** Resolving a concatenation resolves its two parts one after the other. */
  lemma {:induction false} StepAllConcat(p: Path, a: seq<string>, b: seq<string>)
    requires IsNormal(p)
    requires NoSlash(a) && NoSlash(b)
    ensures StepAll(p, a + b) == StepAll(StepAll(p, a), b)
    decreases |a|
  {
    if a == [] {
      assert a + b == b;
    } else {
      assert (a + b)[0] == a[0] && (a + b)[1..] == a[1..] + b;
      StepAllConcat(Step(p, a[0]), a[1..], b);
    }
  }

  /** `n` times ".." drops the last `n` segments. */
  lemma {:induction false} StepAllUps(p: Path, n: nat)
    requires IsNormal(p) && n <= |p|
    ensures StepAll(p, Ups(n)) == p[..|p| - n]
  {
    if n > 0 {
      StepAllConcat(p, Ups(n - 1), [".."]);
      StepAllUps(p, n - 1);
      assert p[..|p| - (n - 1)][..|p| - n] == p[..|p| - n];
    }
  }

  /** Plain segments are appended as they are. */
  lemma {:induction false} StepAllSegments(p: Path, s: Path)
    requires IsNormal(p) && IsNormal(s)
    ensures StepAll(p, s) == p + s
    decreases |s|
  {
    if s == [] {
      ConcatEmpty(p);
    } else {
      var next, rest := p + [s[0]], s[1..];
      assert Step(p, s[0]) == next;
      assert IsNormal(next);
      SliceIsNormal(s, 1, |s|);
      NormalHasNoSlash(rest);
      StepAllSegments(next, rest);
      FirstAndRest(p, s);
    }
  }

  /** Any slice of a normal path is made of plain segments. */
  lemma SliceIsNormal(p: Path, i: nat, j: nat)
    requires IsNormal(p) && i <= j <= |p|
    ensures IsNormal(p[i..j])
  {
    forall m | 0 <= m < j - i ensures IsSegment(p[i..j][m]) {
      assert p[i..j][m] == p[i + m];
    }
  }

  lemma NormalHasNoSlash(p: Path)
    requires IsNormal(p)
    ensures NoSlash(p)
  {
    forall m | 0 <= m < |p| ensures '/' !in p[m] {
      assert IsSegment(p[m]);
    }
  }

  lemma NoSlashConcat(a: seq<string>, b: seq<string>)
    requires NoSlash(a) && NoSlash(b)
    ensures NoSlash(a + b)
  {
    forall m | 0 <= m < |a + b| ensures '/' !in (a + b)[m] {
      if m < |a| {
        assert (a + b)[m] == a[m];
      } else {
        assert (a + b)[m] == b[m - |a|];
      }
    }
  }

  /** A shared prefix followed by the rest of `b` is `b`. */
  lemma SharedPrefixRest<T>(a: seq<T>, b: seq<T>, k: nat)
    requires k <= |a| && k <= |b| && a[..k] == b[..k]
    ensures a[..k] + b[k..] == b
  {
  }

  /** `path.resolve(from, path.relative(from, to))` is `to`. */
  lemma RelativeRoundTrip(from: Path, to: Path)
    requires IsNormal(from) && IsNormal(to)
    ensures NoSlash(Relative(from, to))
    ensures StepAll(from, Relative(from, to)) == to
  {
    var k := CommonPrefixLength(from, to);
    var up, down, shared := Ups(|from| - k), to[k..], from[..k];
    SliceIsNormal(to, k, |to|);
    SliceIsNormal(from, 0, k);
    NormalHasNoSlash(down);
    assert NoSlash(up);
    NoSlashConcat(up, down);
    StepAllUps(from, |from| - k);
    StepAllSegments(shared, down);
    SharedPrefixRest(from, to, k);
    StepAllConcat(from, up, down);
  }

  /** `path.relative(from, to)` as a string; "" when the two paths are equal. */
  function RelativeString(from: Path, to: Path): string {
    Join(Relative(from, to), "/")
  }

  predicate IsPrefix(a: Path, b: Path) {
    |a| <= |b| && b[..|a|] == a
  }

  /**
   * The escape test `path.relative(root, p).startsWith('..')`. It holds for a path
   * outside `root`, and also for a path inside `root` whose first segment below
   * `root` merely begins with two dots (such as "..cache").
   */
  predicate EscapesRoot(root: Path, p: Path) {
    StartsWith(RelativeString(root, p), "..")
  }

  lemma JoinStartsWithDots(parts: seq<string>)
    requires |parts| >= 1 && parts[0] != "" && '/' !in parts[0]
    ensures StartsWith(Join(parts, "/"), "..") <==> StartsWith(parts[0], "..")
  {
    var s := Join(parts, "/");
    if |parts| > 1 {
      assert s == parts[0] + ("/" + Join(parts[1..], "/"));
      if |parts[0]| == 1 {
        assert s[1] == '/';
      } else {
        assert s[..2] == parts[0][..2];
      }
    }
  }

  /** The escape test, stated on segments. */
  lemma EscapesRootIff(root: Path, p: Path)
    requires IsNormal(root) && IsNormal(p)
    ensures EscapesRoot(root, p) <==> !IsPrefix(root, p) || (|p| > |root| && StartsWith(p[|root|], ".."))
  {
    var k := CommonPrefixLength(root, p);
    var rel := Relative(root, p);
    if k < |root| {
      assert rel[0] == "..";
      JoinStartsWithDots(rel);
    } else {
      assert k == |root| && IsPrefix(root, p);
      assert rel == p[|root|..];
      if |p| > |root| {
        assert rel[0] == p[|root|];
        JoinStartsWithDots(rel);
      }
    }
  }

  /** `path.dirname` of an absolute path. */
  function Dirname(p: Path): Path {
    if p == [] then [] else p[..|p| - 1]
  }

  /** `path.basename` of an absolute path ("" for "/"). */
  function BaseOf(p: Path): string {
    if p == [] then "" else p[|p| - 1]
  }

  /** Position of the last occurrence of `c` in `s`, or -1. */
  function LastIndexOf(s: string, c: char): (i: int)
    ensures -1 <= i < |s|
    ensures i >= 0 ==> s[i] == c
  {
    if s == [] then -1 else if s[|s| - 1] == c then |s| - 1 else LastIndexOf(s[..|s| - 1], c)
  }

  /** No occurrence of `c` follows the one `LastIndexOf` finds. */
  lemma {:induction false} LastIndexOfIsLast(s: string, c: char)
    ensures forall k :: LastIndexOf(s, c) < k < |s| ==> s[k] != c
  {
    if s != [] && s[|s| - 1] != c {
      var init := s[..|s| - 1];
      LastIndexOfIsLast(init, c);
      assert forall k :: LastIndexOf(s, c) < k < |init| ==> s[k] == init[k];
    }
  }

  /**
   * `path.extname` of a base name: from its last dot to its end, except when that dot
   * is the first character, there is no dot, or the name is "..".
   */
  function ExtnameOfBase(b: string): string {
    if b == ".." then ""
    else
      var d := LastIndexOf(b, '.');
      if d <= 0 then "" else b[d..]
  }

  /** An extension is empty, or a proper suffix of the name that starts with its only dot. */
  lemma ExtnameOfBaseShape(b: string)
    ensures var e := ExtnameOfBase(b);
      e == [] || (e[0] == '.' && EndsWith(b, e) && |e| < |b| && '.' !in e[1..])
  {
    var e := ExtnameOfBase(b);
    if e != [] {
      var d := LastIndexOf(b, '.');
      LastIndexOfIsLast(b, '.');
      assert e == b[d..];
      assert forall k :: 0 <= k < |e| - 1 ==> e[1..][k] == b[d + 1 + k];
    }
  }

  function StripTrailingSlashes(s: string): (r: string)
    ensures |r| <= |s| && r == s[..|r|]
    ensures r == [] || r[|r| - 1] != '/'
  {
    if |s| > 0 && s[|s| - 1] == '/' then StripTrailingSlashes(s[..|s| - 1]) else s
  }

  /** `path.extname` of a path string: the extension of its last non-empty component. */
  function Extname(s: string): string {
    var t := StripTrailingSlashes(s);
    ExtnameOfBase(t[LastIndexOf(t, '/') + 1..])
  }

  /** `${p}${ext}`: a suffix glued onto the last segment (onto "/" it makes a new segment). */
  function AppendExtension(p: Path, ext: string): (r: Path)
    requires IsNormal(p) && |ext| >= 2 && ext[0] == '.' && ext != ".." && '/' !in ext
    ensures IsNormal(r) && |r| == (if p == [] then 1 else |p|)
    ensures Dirname(r) == Dirname(p)
  {
    if p == [] then [ext]
    else
      p[..|p| - 1] + [p[|p| - 1] + ext]
  }

  /** The working tree: file contents as bytes, and the set of directories. */
  datatype FileSystem = FileSystem(files: map<Path, seq<bv8>>, dirs: set<Path>)

  datatype Stat = Directory | RegularFile | Absent

  /** What `fs.stat` reports; a path recorded both ways counts as a directory. */
  function StatOf(fs: FileSystem, p: Path): (s: Stat)
    ensures s == RegularFile ==> p in fs.files
  {
    if p in fs.dirs then Directory else if p in fs.files then RegularFile else Absent
  }

  /** `fs.access` succeeds: the path exists, as a file or as a directory. */
  predicate Exists(fs: FileSystem, p: Path) {
    p in fs.dirs || p in fs.files
  }
}
