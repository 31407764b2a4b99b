/**
 The unified-diff summariser (motyga-rs/analytics/src/accepted_lines.rs).

 A fingerprint is kept as the pair (path, normalised line) that the source hashes. The
 Unicode alphanumeric test is a parameter, `alnum`; every result holds for all of them.
 */
module AcceptedLines {
  import opened Options
  import opened Text

  datatype Fingerprint = Fingerprint(path: string, line: string)

  datatype Summary = Summary(added: nat, deleted: nat, fingerprints: seq<Fingerprint>)
  {
    function Plus(that: Summary): Summary {
      Summary(added + that.added, deleted + that.deleted, fingerprints + that.fingerprints)
    }
  }

  const NOTHING := Summary(0, 0, [])

  /** The variables of the parsing loop. */
  datatype Scan = Scan(path: Option<string>, inHunk: bool, total: Summary)

  const START := Scan(None, false, NOTHING)

  function NormalizeDiffPath(path: string): Option<string> {
    var trimmed := Trim(path);
    if trimmed == "/dev/null" then None
    else if "b/" <= trimmed || "a/" <= trimmed then Some(trimmed[2..])
    else Some(trimmed)
  }

  function NormalizeEffectiveLine(alnum: char -> bool, line: string): Option<string> {
    var normalized := Join(Words(line));
    if Utf8Length(normalized) <= 3 then None
    else if !exists i :: 0 <= i < |normalized| && (alnum(normalized[i]) || normalized[i] == '_') then None
    else Some(normalized)
  }

  /** The fingerprints one added line contributes. */
  function FingerprintsOf(alnum: char -> bool, path: Option<string>, line: string): seq<Fingerprint> {
    var normalized := NormalizeEffectiveLine(alnum, line);
    if path.Some? && normalized.Some? then [Fingerprint(path.value, normalized.value)] else []
  }

  function Step(alnum: char -> bool, s: Scan, line: string): Scan {
    if "diff --git " <= line then s.(path := None, inHunk := false)
    else if "@@ " <= line then s.(inHunk := true)
    else if !s.inHunk && "+++ " <= line then s.(path := NormalizeDiffPath(line[4..]))
    else if !s.inHunk && "--- " <= line then s
    else if "+" <= line then s.(total := s.total.Plus(Summary(1, 0, FingerprintsOf(alnum, s.path, line[1..]))))
    else if "-" <= line then s.(total := s.total.Plus(Summary(0, 1, [])))
    else s
  }

  function Parse(alnum: char -> bool, s: Scan, lines: seq<string>): Scan
    decreases lines
  {
    if lines == [] then s else Parse(alnum, Step(alnum, s, lines[0]), lines[1..])
  }

  function Summarize(alnum: char -> bool, diff: string): Summary {
    Parse(alnum, START, Lines(diff)).total
  }

  /** The line counts of a diff; they do not depend on the alphanumeric test (`CountsIgnoreAlnum`). */
  function Changed(diff: string): Summary {
    Summarize(c => false, diff)
  }

  /** The body of the parsing loop. */
  method ScanLine(alnum: char -> bool, before: Scan, line: string) returns (s: Scan)
    ensures s == Step(alnum, before, line)
  {
    s := before;
    if "diff --git " <= line {
      s := s.(path := None, inHunk := false);
      return;
    }
    if "@@ " <= line {
      s := s.(inHunk := true);
      return;
    }
    if !s.inHunk && "+++ " <= line {
      s := s.(path := NormalizeDiffPath(line[4..]));
      return;
    }
    if !s.inHunk && "--- " <= line {
      return;
    }
    var total := s.total;
    assert total.fingerprints + [] == total.fingerprints;
    if "+" <= line {
      total := total.(added := total.added + 1);
      var normalized := NormalizeEffectiveLine(alnum, line[1..]);
      if s.path.Some? && normalized.Some? {
        total := total.(fingerprints := total.fingerprints + [Fingerprint(s.path.value, normalized.value)]);
      }
    } else if "-" <= line {
      total := total.(deleted := total.deleted + 1);
    }
    s := s.(total := total);
  }

  method AcceptedLineFingerprintsFromUnifiedDiff(alnum: char -> bool, diff: string) returns (summary: Summary)
    ensures summary == Summarize(alnum, diff)
  {
    var s := START;
    var lines := Lines(diff);
    for i := 0 to |lines|
      invariant Parse(alnum, START, lines) == Parse(alnum, s, lines[i..])
    {
      assert lines[i..][1..] == lines[i + 1..];
      s := ScanLine(alnum, s, lines[i]);
    }
    summary := s.total;
  }

  predicate SameCounts(a: Scan, b: Scan) {
    a.path == b.path && a.inHunk == b.inHunk && a.total.added == b.total.added && a.total.deleted == b.total.deleted
  }

  lemma {:induction false} ParseCounts(f: char -> bool, g: char -> bool, a: Scan, b: Scan, lines: seq<string>)
    requires SameCounts(a, b)
    ensures SameCounts(Parse(f, a, lines), Parse(g, b, lines))
    decreases lines
  {
    if lines != [] {
      ParseCounts(f, g, Step(f, a, lines[0]), Step(g, b, lines[0]), lines[1..]);
    }
  }

  /** How many lines a diff adds and deletes does not depend on which characters are alphanumeric. */
  lemma CountsIgnoreAlnum(alnum: char -> bool, diff: string)
    ensures Summarize(alnum, diff).added == Changed(diff).added
    ensures Summarize(alnum, diff).deleted == Changed(diff).deleted
  {
    ParseCounts(alnum, c => false, START, START, Lines(diff));
  }

  // ---------------------------------------------------------------- normalisation

  /** Normalising a normalised line returns it unchanged; a line and its normal form agree. */
  lemma NormalizeIsIdempotent(alnum: char -> bool, line: string)
    ensures NormalizeEffectiveLine(alnum, Join(Words(line))) == NormalizeEffectiveLine(alnum, line)
    ensures
      var normalized := NormalizeEffectiveLine(alnum, line);
      normalized.Some? ==> NormalizeEffectiveLine(alnum, normalized.value) == normalized
  {
    WordsOfJoin(Words(line));
  }

  /** An added line made of `words`, whatever the white space around them, counts as these words with one
      blank between two; it counts if and only if that takes more than three bytes and has an alphanumeric
      character or an underscore. */
  lemma NormalizedWords(alnum: char -> bool, words: seq<string>, gaps: seq<string>)
    requires AllWords(words) && Separates(gaps, words)
    ensures
      var single := Spread(words, Blanks(|words|));
      NormalizeEffectiveLine(alnum, Spread(words, gaps)) ==
      if Utf8Length(single) > 3 && (exists c :: c in single && (alnum(c) || c == '_')) then Some(single) else None
  {
    WordsOfSpread(words, gaps);
    JoinIsSpread(words);
    var single := Spread(words, Blanks(|words|));
    forall i | 0 <= i < |single| && (alnum(single[i]) || single[i] == '_')
      ensures exists c :: c in single && (alnum(c) || c == '_')
    {
      assert single[i] in single;
    }
  }

  /** Every line is such a line, so each is normalised in this way. */
  lemma NormalizedLine(alnum: char -> bool, line: string)
    ensures
      var single := Spread(Words(line), Blanks(|Words(line)|));
      NormalizeEffectiveLine(alnum, line) ==
      if Utf8Length(single) > 3 && (exists c :: c in single && (alnum(c) || c == '_')) then Some(single) else None
  {
    var gaps := EveryLineIsSpread(line);
    NormalizedWords(alnum, Words(line), gaps);
  }

  /** The path of a `+++` header: white space around it is dropped and so is one of the two prefixes of git;
      `/dev/null` is no path. */
  lemma DiffPathMeans(lead: string, path: string, tail: string)
    requires AllWhite(lead) && AllWhite(tail) && (path == "" || (!IsWhite(path[0]) && !IsWhite(path[|path| - 1])))
    ensures
      var normalized := NormalizeDiffPath(lead + path + tail);
      && (normalized.None? <==> path == "/dev/null")
      && (normalized.Some? ==>
            || path == "a/" + normalized.value || path == "b/" + normalized.value
            || (path == normalized.value && !("a/" <= path) && !("b/" <= path)))
  {
    TrimMeans(lead, path, tail);
  }

  // ---------------------------------------------------------------- composition

  lemma {:induction false} ParseAppend(alnum: char -> bool, s: Scan, one: seq<string>, two: seq<string>)
    ensures Parse(alnum, s, one + two) == Parse(alnum, Parse(alnum, s, one), two)
    decreases one
  {
    if one == [] {
      assert one + two == two;
    } else {
      assert (one + two)[1..] == one[1..] + two;
      ParseAppend(alnum, Step(alnum, s, one[0]), one[1..], two);
    }
  }

  lemma PlusAssociates(a: Summary, b: Summary, c: Summary)
    ensures a.Plus(b).Plus(c) == a.Plus(b.Plus(c))
  {
  }

  /** What was counted before does not influence what is counted next. */
  lemma {:induction false} ParseShifts(alnum: char -> bool, s: Scan, before: Summary, lines: seq<string>)
    ensures
      var after := Parse(alnum, s, lines);
      Parse(alnum, s.(total := before.Plus(s.total)), lines) == after.(total := before.Plus(after.total))
    decreases lines
  {
    if lines != [] {
      StepShifts(alnum, s, before, lines[0]);
      ParseShifts(alnum, Step(alnum, s, lines[0]), before, lines[1..]);
    }
  }

  lemma ParseAccumulates(alnum: char -> bool, s: Scan, lines: seq<string>)
    ensures
      var alone := Parse(alnum, s.(total := NOTHING), lines);
      Parse(alnum, s, lines) == alone.(total := s.total.Plus(alone.total))
  {
    PlusUnit(s.total);
    ParseShifts(alnum, s.(total := NOTHING), s.total, lines);
  }

  lemma PlusUnit(a: Summary)
    ensures a.Plus(NOTHING) == a && NOTHING.Plus(a) == a
  {
  }

  /** What one line adds to the summary. */
  function Gain(alnum: char -> bool, s: Scan, line: string): Summary {
    if "diff --git " <= line || "@@ " <= line || (!s.inHunk && ("+++ " <= line || "--- " <= line)) then NOTHING
    else if "+" <= line then Summary(1, 0, FingerprintsOf(alnum, s.path, line[1..]))
    else if "-" <= line then Summary(0, 1, [])
    else NOTHING
  }

  lemma StepGains(alnum: char -> bool, s: Scan, line: string)
    ensures Step(alnum, s, line).total == s.total.Plus(Gain(alnum, s, line))
  {
    PlusUnit(s.total);
  }

  lemma StepMoves(alnum: char -> bool, s: Scan, t: Scan, line: string)
    requires s.path == t.path && s.inHunk == t.inHunk
    ensures Step(alnum, s, line).path == Step(alnum, t, line).path && Step(alnum, s, line).inHunk == Step(alnum, t, line).inHunk
  {
  }

  lemma StepShifts(alnum: char -> bool, s: Scan, before: Summary, line: string)
    ensures
      var after := Step(alnum, s, line);
      Step(alnum, s.(total := before.Plus(s.total)), line) == after.(total := before.Plus(after.total))
  {
    var shifted := s.(total := before.Plus(s.total));
    StepGains(alnum, s, line);
    StepGains(alnum, shifted, line);
    StepMoves(alnum, s, shifted, line);
    PlusAssociates(before, s.total, Gain(alnum, s, line));
    assert Gain(alnum, shifted, line) == Gain(alnum, s, line);
  }

  /** A diff followed by one that starts a new file section is summarised as the sum of the two. */
  lemma SummarizeIsCompositional(alnum: char -> bool, one: string, two: string)
    requires EndsLine(one) && "diff --git " <= two
    ensures Summarize(alnum, one + two) == Summarize(alnum, one).Plus(Summarize(alnum, two))
  {
    var first, second := Lines(one), Lines(two);
    LinesAppend(one, two);
    ParseAppend(alnum, START, first, second);
    SectionLine(two);
    var s := Parse(alnum, START, first);
    ParseAccumulates(alnum, Step(alnum, s, second[0]), second[1..]);
    ParseAccumulates(alnum, Step(alnum, START, second[0]), second[1..]);
  }

  lemma SectionLine(diff: string)
    requires "diff --git " <= diff
    ensures Lines(diff) != [] && "diff --git " <= Lines(diff)[0]
  {
    var k := NewlineIndex(diff);
    assert diff[..11] == "diff --git ";
    assert k >= 11;
    assert diff[..k][..11] == diff[..11];
    assert diff[..k][10] == ' ';
  }

  /** Without the line boundary the law fails: the section header is swallowed by the unfinished line
      before it, and the file header of the second diff is counted as an added line. */
  lemma CompositionNeedsLineBoundary(alnum: char -> bool)
    ensures
      var one, two := "@@ ", "diff --git " + "\n" + "+++ b";
      && Summarize(alnum, one + two).added == 1
      && Summarize(alnum, one).Plus(Summarize(alnum, two)).added == 0
  {
    MergedHeader(alnum);
    HeaderAlone(alnum);
    var one := "@@ ";
    NewlineIndexUnique(one, |one|);
    assert Lines(one) == [one] && [one][1..] == [];
    assert Parse(alnum, START, [one]) == Step(alnum, START, one);
  }

  lemma MergedHeader(alnum: char -> bool)
    ensures Summarize(alnum, "@@ " + ("diff --git " + "\n" + "+++ b")).added == 1
  {
    HeaderInsideHunk(alnum, "@@ ", "diff --git ", "+++ b");
  }

  lemma HeaderInsideHunk(alnum: char -> bool, hunk: string, section: string, file: string)
    requires hunk == "@@ " && '\n' !in section && section != "" && StripCr(section) == section
    requires '\n' !in file && file != "" && file[0] == '+'
    ensures Summarize(alnum, hunk + (section + "\n" + file)).added == 1
  {
    var merged := hunk + section;
    assert hunk + (section + "\n" + file) == merged + "\n" + file;
    assert merged[|merged| - 1] == section[|section| - 1];
    SummarizeTwo(alnum, merged, file);
    HunkHeader(alnum, START, merged);
    AddedInHunk(alnum, START.(inHunk := true), file);
  }

  lemma HunkHeader(alnum: char -> bool, s: Scan, line: string)
    requires "@@ " <= line
    ensures Step(alnum, s, line) == s.(inHunk := true)
  {
    assert line[0] == '@';
  }

  lemma AddedInHunk(alnum: char -> bool, s: Scan, line: string)
    requires s.inHunk && line != "" && line[0] == '+'
    ensures Step(alnum, s, line) == s.(total := s.total.Plus(Summary(1, 0, FingerprintsOf(alnum, s.path, line[1..]))))
  {
  }

  lemma HeaderAlone(alnum: char -> bool)
    ensures Summarize(alnum, "diff --git " + "\n" + "+++ b").added == 0
  {
    var section, file := "diff --git ", "+++ b";
    SummarizeTwo(alnum, section, file);
    assert Step(alnum, START, section) == START;
    assert file[0] == '+';
  }

  lemma TwoLines(a: string, b: string)
    requires '\n' !in a && '\n' !in b && b != "" && StripCr(a) == a
    ensures Lines(a + "\n" + b) == [a, b]
  {
    var s := a + "\n" + b;
    assert s[..|a|] == a && s[|a| + 1..] == b;
    NewlineIndexUnique(s, |a|);
    assert b[..|b|] == b;
    NewlineIndexUnique(b, |b|);
  }

  lemma SummarizeTwo(alnum: char -> bool, a: string, b: string)
    requires '\n' !in a && '\n' !in b && b != "" && StripCr(a) == a
    ensures Summarize(alnum, a + "\n" + b) == Step(alnum, Step(alnum, START, a), b).total
  {
    TwoLines(a, b);
    var s := Step(alnum, START, a);
    assert [a, b][1..] == [b] && [b][1..] == [];
    assert Parse(alnum, s, [b]) == Parse(alnum, Step(alnum, s, b), []);
  }
}
