/**
 * The `git diff --name-status` parser of src/lib/git.ts: the text git prints becomes
 * one change record per non-blank line. Running git is not part of the model; its
 * standard output is the input.
 */
module Git {
  import opened Wrappers
  import opened Strings

  /**
   * A changed file. `status` is the first character of the status field ("" when that
   * field is empty); `path` is `None` only for a rename or copy line without any path,
   * where the source yields `undefined`.
   */
  datatype FileChange = FileChange(path: Option<string>, status: string, originalPath: Option<string>)

  predicate IsRenameOrCopy(status: string) {
    status == "R" || status == "C"
  }

  /** `statusToken.charAt(0)`. */
  function FirstChar(token: string): (r: string)
    ensures |r| <= 1 && (r == [] <==> token == [])
    ensures r != [] ==> r[0] == token[0]
  {
    if token == [] then [] else token[..1]
  }

  /**
   * `parseStatusLine`: the fields are separated by tabs; a rename or copy names the
   * original path and then the new one, any other status names one path.
   */
  function ParseStatusLine(line: string): (c: FileChange)
    ensures c.status == (if |line| > 0 && line[0] != '\t' then [line[0]] else [])
    ensures c.originalPath.Some? <==> IsRenameOrCopy(c.status) && '\t' in line
    ensures c.path.None? <==> IsRenameOrCopy(c.status) && '\t' !in line
    ensures c.path.Some? ==> '\t' !in c.path.value
    ensures c.originalPath.Some? ==> '\t' !in c.originalPath.value
  {
    var fields := Split(line, '\t');
    var status := FirstChar(fields[0]);
    var paths := fields[1..];
    FirstFieldIsLineStart(line);
    SplitHasOneFieldIffNoTab(line);
    if IsRenameOrCopy(status) then
      var originalPath := if |paths| > 0 then Some(paths[0]) else None;
      var newPath := if |paths| > 1 then Some(paths[1]) else None;
      FileChange(newPath.OrElse(originalPath), status, originalPath)
    else
      FileChange(Some(if |paths| > 0 then paths[0] else ""), status, None)
  }

  /** The first field starts where the line starts, and is empty exactly when the line starts with a tab. */
  lemma FirstFieldIsLineStart(line: string)
    ensures var f := Split(line, '\t')[0];
      (f == [] <==> (line == [] || line[0] == '\t')) && (f != [] ==> f[0] == line[0])
  {
    if '\t' in line {
      var i := IndexOf(line, '\t');
      assert Split(line, '\t')[0] == line[..i];
    }
  }

  lemma SplitHasOneFieldIffNoTab(line: string)
    ensures |Split(line, '\t')| == 1 <==> '\t' !in line
  {
    if '\t' in line {
      var i := IndexOf(line, '\t');
      assert Split(line, '\t') == [line[..i]] + Split(line[i + 1..], '\t');
    }
  }

  /** What one line contributes: its trim, unless that is empty. */
  function Kept(line: string): (r: seq<string>)
    ensures |r| <= 1
    ensures forall i :: 0 <= i < |r| ==> r[i] != [] && IsTrimmed(r[i])
  {
    var t := Trim(line);
    if t == [] then [] else [t]
  }

  /** The lines of `stdout`, each trimmed, without the ones that trim to nothing. */
  function TrimmedNonEmpty(lines: seq<string>): (r: seq<string>)
    ensures |r| <= |lines|
    ensures forall i :: 0 <= i < |r| ==> r[i] != [] && IsTrimmed(r[i])
  {
    if lines == [] then [] else TrimmedNonEmpty(lines[..|lines| - 1]) + Kept(lines[|lines| - 1])
  }

  /** `stdout.split('\n').map((line) => line.trim()).filter(Boolean)`. */
  function NonBlankLines(stdout: string): (r: seq<string>)
    ensures forall i :: 0 <= i < |r| ==> r[i] != [] && IsTrimmed(r[i]) && '\n' !in r[i]
  {
    var lines := Split(stdout, '\n');
    TrimmedKeepsAbsentChar(lines, '\n');
    TrimmedNonEmpty(lines)
  }

  /** A character no input line holds is held by no kept line. */
  lemma {:induction false} TrimmedKeepsAbsentChar(lines: seq<string>, c: char)
    requires forall k :: 0 <= k < |lines| ==> c !in lines[k]
    ensures forall i :: 0 <= i < |TrimmedNonEmpty(lines)| ==> c !in TrimmedNonEmpty(lines)[i]
  {
    if lines != [] {
      TrimmedKeepsAbsentChar(lines[..|lines| - 1], c);
      TrimIsInfix(lines[|lines| - 1]);
    }
  }

  lemma TrimIsInfix(s: string)
    ensures forall c :: c in Trim(s) ==> c in s
  {
    var t := Trim(s);
    var i, j := TrimSlice(s);
    forall c | c in t ensures c in s {
      var k :| 0 <= k < |t| && t[k] == c;
      assert s[i + k] == c;
    }
  }

  /** `getChangedFiles`: one change record per non-blank line of the output, in output order. */
  function GetChangedFiles(stdout: string): (r: seq<FileChange>)
    ensures |r| == |NonBlankLines(stdout)|
    ensures forall i :: 0 <= i < |r| ==> r[i] == ParseStatusLine(NonBlankLines(stdout)[i])
  {
    var lines := NonBlankLines(stdout);
    seq(|lines|, i requires 0 <= i < |lines| => ParseStatusLine(lines[i]))
  }

  /** Blank lines contribute nothing, and the other lines keep their order. */
  lemma {:induction false} TrimmedNonEmptyAppend(a: seq<string>, b: seq<string>)
    ensures TrimmedNonEmpty(a + b) == TrimmedNonEmpty(a) + TrimmedNonEmpty(b)
    decreases |b|
  {
    if b == [] {
      ConcatEmpty(a);
      ConcatEmpty(TrimmedNonEmpty(a));
    } else {
      var b', last := b[..|b| - 1], b[|b| - 1];
      TrimmedNonEmptyAppend(a, b');
      ConcatFront(a, b);
      assert TrimmedNonEmpty(a + b) == TrimmedNonEmpty(a + b') + Kept(last);
      assert TrimmedNonEmpty(b) == TrimmedNonEmpty(b') + Kept(last);
      ConcatAssoc(TrimmedNonEmpty(a), TrimmedNonEmpty(b'), Kept(last));
    }
  }

  /** A single line contributes its trim when that is not empty, and nothing otherwise. */
  lemma TrimmedNonEmptySingle(line: string)
    ensures TrimmedNonEmpty([line]) == (if Trim(line) == [] then [] else [Trim(line)])
  {
    assert [line][..0] == [];
  }

  /** Lines already trimmed and non-blank all survive, unchanged. */
  lemma {:induction false} TrimmedNonEmptyOfClean(lines: seq<string>)
    requires forall i :: 0 <= i < |lines| ==> lines[i] != [] && IsTrimmed(lines[i])
    ensures TrimmedNonEmpty(lines) == lines
  {
    if lines != [] {
      var init, last := lines[..|lines| - 1], lines[|lines| - 1];
      TrimmedNonEmptyOfClean(init);
      TrimOfTrimmed(last);
      assert Kept(last) == [last];
      FrontAndLast(lines);
    }
  }

  /** Printing clean lines separated by newlines and parsing them back gives one record per line. */
  lemma ChangedFilesOfLines(lines: seq<string>)
    requires forall i :: 0 <= i < |lines| ==> lines[i] != [] && IsTrimmed(lines[i]) && '\n' !in lines[i]
    ensures NonBlankLines(Join(lines, "\n")) == lines
    ensures GetChangedFiles(Join(lines, "\n")) == seq(|lines|, i requires 0 <= i < |lines| => ParseStatusLine(lines[i]))
  {
    if lines == [] {
      assert Split("", '\n') == [""];
      TrimmedNonEmptySingle("");
      TrimEmptyIffBlank("");
    } else {
      SplitJoin(lines, '\n');
      TrimmedNonEmptyOfClean(lines);
    }
  }

  /** A tab-separated line of a status token and two tab-free paths. */
  lemma SplitThreeFields(token: string, first: string, second: string)
    requires '\t' !in token && '\t' !in first && '\t' !in second
    ensures Split(token + "\t" + first + "\t" + second, '\t') == [token, first, second]
  {
    var parts := [token, first, second];
    assert Join(parts[2..], "\t") == second;
    assert Join(parts[1..], "\t") == first + "\t" + second;
    assert Join(parts, "\t") == token + "\t" + first + "\t" + second;
    SplitJoin(parts, '\t');
  }

  lemma SplitTwoFields(token: string, first: string)
    requires '\t' !in token && '\t' !in first
    ensures Split(token + "\t" + first, '\t') == [token, first]
  {
    var parts := [token, first];
    assert Join(parts[1..], "\t") == first;
    assert Join(parts, "\t") == token + "\t" + first;
    SplitJoin(parts, '\t');
  }

  /** A rename or copy line names the original path, then the new path. */
  lemma ParseRenameLine(token: string, originalPath: string, path: string)
    requires token != [] && IsRenameOrCopy(token[..1])
    requires '\t' !in token && '\t' !in originalPath && '\t' !in path
    ensures ParseStatusLine(token + "\t" + originalPath + "\t" + path)
      == FileChange(Some(path), token[..1], Some(originalPath))
  {
    SplitThreeFields(token, originalPath, path);
  }

  /** A rename or copy line with a single path uses it as both the original and the new path. */
  lemma ParseRenameLineWithOnePath(token: string, originalPath: string)
    requires token != [] && IsRenameOrCopy(token[..1])
    requires '\t' !in token && '\t' !in originalPath
    ensures ParseStatusLine(token + "\t" + originalPath) == FileChange(Some(originalPath), token[..1], Some(originalPath))
  {
    SplitTwoFields(token, originalPath);
  }

  /** Any other status takes the first path and has no original path. */
  lemma ParseOtherLine(token: string, path: string)
    requires token != [] && !IsRenameOrCopy(token[..1])
    requires '\t' !in token && '\t' !in path
    ensures ParseStatusLine(token + "\t" + path) == FileChange(Some(path), token[..1], None)
  {
    SplitTwoFields(token, path);
  }

  /** Any other status with no path field gets the empty path. */
  lemma ParseOtherLineWithoutPath(token: string)
    requires token != [] && !IsRenameOrCopy(token[..1]) && '\t' !in token
    ensures ParseStatusLine(token) == FileChange(Some(""), token[..1], None)
  {
    assert Split(token, '\t') == [token];
  }

  /** The status of every parsed change is one character that is not whitespace. */
  lemma StatusIsOneVisibleChar(stdout: string)
    ensures forall c :: c in GetChangedFiles(stdout) ==> |c.status| == 1 && !IsWhitespace(c.status[0])
  {
    var lines := NonBlankLines(stdout);
    forall c | c in GetChangedFiles(stdout) ensures |c.status| == 1 && !IsWhitespace(c.status[0]) {
      var i :| 0 <= i < |lines| && c == ParseStatusLine(lines[i]);
      assert IsTrimmed(lines[i]);
    }
  }
}
