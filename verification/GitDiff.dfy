/**
 Structured git diffs, how they are printed, and what they really change. The summariser is
 proved exact against this printer, including hunk lines that look like file headers.
 */
module GitDiff {
  import opened Options
  import opened Text
  import opened AcceptedLines

  datatype HunkLine = Context(text: string) | Added(text: string) | Deleted(text: string) | NoNewlineAtEnd

  datatype Hunk = Hunk(range: string, lines: seq<HunkLine>)

  /** `newPath` is `None` when the file is deleted. */
  datatype Body = Body(oldName: string, newPath: Option<string>, hunks: seq<Hunk>)

  /** A section without a body is a mode change, a pure rename or a binary file. */
  datatype FileDiff = FileDiff(title: string, extended: seq<string>, body: Option<Body>)

  // ---------------------------------------------------------------- printing

  function PrintHunkLine(line: HunkLine): string {
    match line
    case Context(text) => " " + text
    case Added(text) => "+" + text
    case Deleted(text) => "-" + text
    case NoNewlineAtEnd => "\\ No newline at end of file"
  }

  function PrintHunkLines(lines: seq<HunkLine>): seq<string> {
    if lines == [] then [] else [PrintHunkLine(lines[0])] + PrintHunkLines(lines[1..])
  }

  function PrintHunks(hunks: seq<Hunk>): seq<string> {
    if hunks == [] then []
    else ["@@ " + hunks[0].range] + PrintHunkLines(hunks[0].lines) + PrintHunks(hunks[1..])
  }

  function PrintNewName(newPath: Option<string>): string {
    match newPath
    case None => "+++ " + "/dev/null"
    case Some(path) => "+++ " + ("b/" + path)
  }

  function PrintBody(body: Body): seq<string> {
    ["--- " + body.oldName, PrintNewName(body.newPath)] + PrintHunks(body.hunks)
  }

  function PrintFile(file: FileDiff): seq<string> {
    ["diff --git " + file.title] + file.extended + (if file.body.Some? then PrintBody(file.body.value) else [])
  }

  function PrintFiles(files: seq<FileDiff>): seq<string> {
    if files == [] then [] else PrintFile(files[0]) + PrintFiles(files[1..])
  }

  /** Extended header lines (`index`, `new file mode`, `rename from`, ...) start with a letter. */
  predicate IsExtendedHeader(line: string) {
    line != "" && line[0] != '+' && line[0] != '-' && line[0] != '@' && !("diff --git " <= line)
  }

  predicate Printable(files: seq<FileDiff>) {
    && (forall f :: 0 <= f < |files| ==> forall e :: 0 <= e < |files[f].extended| ==> IsExtendedHeader(files[f].extended[e]))
    && (forall i :: 0 <= i < |PrintFiles(files)| ==> '\n' !in PrintFiles(files)[i])
  }

  // ---------------------------------------------------------------- what a diff really changes

  function LineChange(alnum: char -> bool, newPath: Option<string>, line: HunkLine): Summary {
    match line
    case Added(text) =>
      Summary(1, 0, FingerprintsOf(alnum, if newPath.Some? then Some(TrimEnd(newPath.value)) else None, text))
    case Deleted(_) => Summary(0, 1, [])
    case _ => NOTHING
  }

  function LinesChange(alnum: char -> bool, newPath: Option<string>, lines: seq<HunkLine>): Summary {
    if lines == [] then NOTHING
    else LineChange(alnum, newPath, lines[0]).Plus(LinesChange(alnum, newPath, lines[1..]))
  }

  function HunksChange(alnum: char -> bool, newPath: Option<string>, hunks: seq<Hunk>): Summary {
    if hunks == [] then NOTHING
    else LinesChange(alnum, newPath, hunks[0].lines).Plus(HunksChange(alnum, newPath, hunks[1..]))
  }

  function FileChange(alnum: char -> bool, file: FileDiff): Summary {
    if file.body.None? then NOTHING else HunksChange(alnum, file.body.value.newPath, file.body.value.hunks)
  }

  function FilesChange(alnum: char -> bool, files: seq<FileDiff>): Summary {
    if files == [] then NOTHING else FileChange(alnum, files[0]).Plus(FilesChange(alnum, files[1..]))
  }

  // ---------------------------------------------------------------- the parser on printed lines

  lemma StripCrKeepsHead(head: string, tail: string)
    requires head != "" && head[|head| - 1] != '\r'
    ensures StripCr(head + tail) == head + StripCr(tail)
  {
    if tail == "" {
      assert head + tail == head;
    }
  }

  lemma PlusAssociative(a: Summary, b: Summary, c: Summary)
    ensures a.Plus(b).Plus(c) == a.Plus(b.Plus(c))
    ensures a.Plus(NOTHING) == a && NOTHING.Plus(a) == a
  {
  }

  /** A line that is neither added nor deleted, nor a header. */
  lemma PlainLine(alnum: char -> bool, s: Scan, line: string)
    requires line != "" && (line[0] == ' ' || line[0] == '\\')
    ensures Step(alnum, s, line) == s
  {
  }

  lemma DeletedInHunk(alnum: char -> bool, s: Scan, line: string)
    requires s.inHunk && line != "" && line[0] == '-'
    ensures Step(alnum, s, line) == s.(total := s.total.Plus(Summary(0, 1, [])))
  {
  }

  lemma AddedExact(alnum: char -> bool, s: Scan, text: string)
    requires s.inHunk
    ensures Step(alnum, s, StripCr("+" + text)) == s.(total := s.total.Plus(Summary(1, 0, FingerprintsOf(alnum, s.path, text))))
  {
    var line := "+" + StripCr(text);
    StripCrKeepsHead("+", text);
    assert line[1..] == StripCr(text);
    AddedInHunk(alnum, s, line);
    WordsIgnoreCr(text);
  }

  lemma HunkLineExact(alnum: char -> bool, s: Scan, newPath: Option<string>, line: HunkLine)
    requires s.inHunk && s.path == if newPath.Some? then Some(TrimEnd(newPath.value)) else None
    ensures Step(alnum, s, StripCr(PrintHunkLine(line)))
         == s.(total := s.total.Plus(LineChange(alnum, newPath, line)))
  {
    PlusUnit(s.total);
    match line {
      case Context(text) =>
        StripCrKeepsHead(" ", text);
        PlainLine(alnum, s, " " + StripCr(text));
      case Added(text) =>
        AddedExact(alnum, s, text);
      case Deleted(text) =>
        StripCrKeepsHead("-", text);
        DeletedInHunk(alnum, s, "-" + StripCr(text));
      case NoNewlineAtEnd =>
        assert PrintHunkLine(line)[0] == '\\';
        PlainLine(alnum, s, StripCr(PrintHunkLine(line)));
    }
  }

  lemma {:induction false} HunkLinesExact(alnum: char -> bool, s: Scan, newPath: Option<string>, lines: seq<HunkLine>)
    requires s.inHunk && s.path == if newPath.Some? then Some(TrimEnd(newPath.value)) else None
    ensures Parse(alnum, s, StripAll(PrintHunkLines(lines)))
         == s.(total := s.total.Plus(LinesChange(alnum, newPath, lines)))
    decreases lines
  {
    if lines == [] {
      PlusAssociative(s.total, NOTHING, NOTHING);
    } else {
      HunkLineExact(alnum, s, newPath, lines[0]);
      var next := s.(total := s.total.Plus(LineChange(alnum, newPath, lines[0])));
      HunkLinesExact(alnum, next, newPath, lines[1..]);
      PlusAssociative(s.total, LineChange(alnum, newPath, lines[0]), LinesChange(alnum, newPath, lines[1..]));
      var printed := StripAll(PrintHunkLines(lines));
      assert PrintHunkLines(lines)[1..] == PrintHunkLines(lines[1..]);
      assert printed[1..] == StripAll(PrintHunkLines(lines[1..]));
    }
  }

  lemma {:induction false} HunksExact(alnum: char -> bool, s: Scan, newPath: Option<string>, hunks: seq<Hunk>)
    requires s.path == if newPath.Some? then Some(TrimEnd(newPath.value)) else None
    ensures
      Parse(alnum, s, StripAll(PrintHunks(hunks))).total == s.total.Plus(HunksChange(alnum, newPath, hunks))
    decreases hunks
  {
    if hunks == [] {
      PlusAssociative(s.total, NOTHING, NOTHING);
    } else {
      var header, lines, rest := "@@ " + hunks[0].range, PrintHunkLines(hunks[0].lines), PrintHunks(hunks[1..]);
      StripAllAppend([header] + lines, rest);
      StripAllAppend([header], lines);
      StripCrKeepsHead("@@ ", hunks[0].range);
      ParseAppend(alnum, s, StripAll([header] + lines), StripAll(rest));
      ParseHead(alnum, s, StripCr(header), StripAll(lines));
      HunkHeader(alnum, s, StripCr(header));
      var inside := s.(inHunk := true);
      HunkLinesExact(alnum, inside, newPath, hunks[0].lines);
      var after := Parse(alnum, inside, StripAll(lines));
      HunksExact(alnum, after, newPath, hunks[1..]);
      PlusAssociative(s.total, LinesChange(alnum, newPath, hunks[0].lines), HunksChange(alnum, newPath, hunks[1..]));
      assert [header][1..] == [];
      assert StripAll([header]) == [StripCr(header)];
    }
  }

  lemma ParseHead(alnum: char -> bool, s: Scan, line: string, lines: seq<string>)
    ensures Parse(alnum, s, [line] + lines) == Parse(alnum, Step(alnum, s, line), lines)
  {
    assert ([line] + lines)[1..] == lines;
  }

  lemma PathOfName(newPath: string)
    ensures NormalizeDiffPath(StripCr("b/" + newPath)) == Some(TrimEnd(newPath))
  {
    var name := "b/" + newPath;
    StripCrKeepsHead("b/", newPath);
    TrimEndAfter("b/", StripCr(newPath));
    TrimEndIgnoresCr(newPath);
    var trimmed := "b/" + TrimEnd(newPath);
    assert Trim(StripCr(name)) == trimmed;
    assert trimmed[0] == 'b' && trimmed[2..] == TrimEnd(newPath);
  }

  lemma NameLine(alnum: char -> bool, s: Scan, name: string)
    requires !s.inHunk
    ensures Step(alnum, s, "+++ " + name) == s.(path := NormalizeDiffPath(name))
  {
    var line := "+++ " + name;
    assert line[0] == '+' && line[4..] == name;
  }

  /** The file headers set the path that the fingerprints carry. */
  lemma NewNameExact(alnum: char -> bool, s: Scan, newPath: Option<string>)
    requires !s.inHunk
    ensures Step(alnum, s, StripCr(PrintNewName(newPath)))
         == s.(path := if newPath.Some? then Some(TrimEnd(newPath.value)) else None)
  {
    var name := if newPath.Some? then "b/" + newPath.value else "/dev/null";
    StripCrKeepsHead("+++ ", name);
    NameLine(alnum, s, StripCr(name));
    if newPath.Some? {
      PathOfName(newPath.value);
    } else {
      assert Trim("/dev/null") == "/dev/null";
    }
  }

  lemma BodyExact(alnum: char -> bool, s: Scan, body: Body)
    requires !s.inHunk
    ensures Parse(alnum, s, StripAll(PrintBody(body))).total
         == s.total.Plus(HunksChange(alnum, body.newPath, body.hunks))
  {
    var oldName, newName, hunks := "--- " + body.oldName, PrintNewName(body.newPath), PrintHunks(body.hunks);
    assert PrintBody(body) == [oldName] + ([newName] + hunks);
    assert [oldName][1..] == [] && [newName][1..] == [];
    assert StripAll([oldName]) == [StripCr(oldName)] && StripAll([newName]) == [StripCr(newName)];
    StripAllAppend([oldName], [newName] + hunks);
    StripAllAppend([newName], hunks);
    ParseHead(alnum, s, StripCr(oldName), StripAll([newName] + hunks));
    ParseHead(alnum, s, StripCr(newName), StripAll(hunks));
    OldNameSkipped(alnum, s, body.oldName);
    NewNameExact(alnum, s, body.newPath);
    HunksExact(alnum, Step(alnum, s, StripCr(newName)), body.newPath, body.hunks);
  }

  lemma OldNameSkipped(alnum: char -> bool, s: Scan, oldName: string)
    requires !s.inHunk
    ensures Step(alnum, s, StripCr("--- " + oldName)) == s
  {
    StripCrKeepsHead("--- ", oldName);
    assert ("--- " + StripCr(oldName))[0] == '-';
  }

  lemma {:induction false} ExtendedSkipped(alnum: char -> bool, s: Scan, extended: seq<string>)
    requires forall e :: 0 <= e < |extended| ==> IsExtendedHeader(extended[e])
    ensures Parse(alnum, s, StripAll(extended)) == s
    decreases extended
  {
    if extended != [] {
      ExtendedLineSkipped(alnum, s, extended[0]);
      ParseHead(alnum, s, StripCr(extended[0]), StripAll(extended[1..]));
      ExtendedSkipped(alnum, s, extended[1..]);
    }
  }

  lemma ExtendedLineSkipped(alnum: char -> bool, s: Scan, line: string)
    requires IsExtendedHeader(line)
    ensures Step(alnum, s, StripCr(line)) == s
  {
    var stripped := StripCr(line);
    assert stripped <= line;
    assert "diff --git " <= stripped ==> "diff --git " <= line;
  }

  lemma SectionResets(alnum: char -> bool, s: Scan, title: string)
    ensures Step(alnum, s, StripCr("diff --git " + title)) == s.(path := None, inHunk := false)
  {
    StripCrKeepsHead("diff --git ", title);
  }

  /** One section, whatever state the previous section left behind. */
  lemma FileExact(alnum: char -> bool, s: Scan, file: FileDiff)
    requires forall e :: 0 <= e < |file.extended| ==> IsExtendedHeader(file.extended[e])
    ensures Parse(alnum, s, StripAll(PrintFile(file))).total == s.total.Plus(FileChange(alnum, file))
  {
    var header := "diff --git " + file.title;
    var body := if file.body.Some? then PrintBody(file.body.value) else [];
    var clean := s.(path := None, inHunk := false);
    assert PrintFile(file) == [header] + (file.extended + body);
    assert [header][1..] == [];
    assert StripAll([header]) == [StripCr(header)];
    StripAllAppend([header], file.extended + body);
    StripAllAppend(file.extended, body);
    ParseHead(alnum, s, StripCr(header), StripAll(file.extended + body));
    SectionResets(alnum, s, file.title);
    ParseAppend(alnum, clean, StripAll(file.extended), StripAll(body));
    ExtendedSkipped(alnum, clean, file.extended);
    if file.body.Some? {
      BodyExact(alnum, clean, file.body.value);
    } else {
      PlusAssociative(s.total, NOTHING, NOTHING);
    }
  }

  lemma {:induction false} FilesExact(alnum: char -> bool, s: Scan, files: seq<FileDiff>)
    requires forall f :: 0 <= f < |files| ==> forall e :: 0 <= e < |files[f].extended| ==> IsExtendedHeader(files[f].extended[e])
    ensures Parse(alnum, s, StripAll(PrintFiles(files))).total == s.total.Plus(FilesChange(alnum, files))
    decreases files
  {
    if files == [] {
      PlusAssociative(s.total, NOTHING, NOTHING);
    } else {
      var one, rest := PrintFile(files[0]), PrintFiles(files[1..]);
      StripAllAppend(one, rest);
      ParseAppend(alnum, s, StripAll(one), StripAll(rest));
      FileExact(alnum, s, files[0]);
      FilesExact(alnum, Parse(alnum, s, StripAll(one)), files[1..]);
      PlusAssociative(s.total, FileChange(alnum, files[0]), FilesChange(alnum, files[1..]));
    }
  }

  /** Summarising the printed text of a structured git diff returns exactly its added and deleted
      line counts and its ordered (path, normalised line) fingerprints. */
  lemma SummarizeIsExact(alnum: char -> bool, files: seq<FileDiff>)
    requires Printable(files)
    ensures Summarize(alnum, Unlines(PrintFiles(files))) == FilesChange(alnum, files)
  {
    LinesOfUnlines(PrintFiles(files));
    FilesExact(alnum, START, files);
    PlusAssociative(FilesChange(alnum, files), NOTHING, NOTHING);
  }
}
