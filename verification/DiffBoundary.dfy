/**
 Exactly when a diff can be followed by any other one: summarising the two together is the sum of both
 for every second diff if and only if the first one is `Separable`, which can be read off it alone. A
 first diff that ends its last line always is.
 */
module DiffBoundary {
  import opened Options
  import opened Text
  import opened AcceptedLines

  const HEADER := "diff --git "

  /** The last line is finished; or it is itself the start of a section; or the lines before it leave the
      scanner outside every hunk and without a path, and it starts neither a hunk nor names a file. */
  predicate Separable(alnum: char -> bool, one: string) {
    || EndsLine(one)
    || (var lines := Lines(one);
        lines != [] && Ignorable(Parse(alnum, START, lines[..|lines| - 1]), lines[|lines| - 1]))
  }

  predicate Ignorable(s: Scan, last: string) {
    HEADER <= last || (s.path.None? && !s.inHunk && !("@@ " <= last) && !("+++ " <= last))
  }

  /** The section header takes effect right after `one`. */
  predicate Resets(alnum: char -> bool, one: string) {
    var s := Parse(alnum, START, Lines(one + HEADER));
    s.path.None? && !s.inHunk
  }

  predicate Composes(alnum: char -> bool, one: string, two: string) {
    Summarize(alnum, one + two) == Summarize(alnum, one).Plus(Summarize(alnum, two))
  }

  // ---------------------------------------------------------------- lines of an unfinished text

  /** The lines of an unfinished text and of its continuation, put together. */
  function Joined(a: seq<string>, b: seq<string>): seq<string>
    requires a != [] && b != []
  {
    a[..|a| - 1] + ([a[|a| - 1] + b[0]] + b[1..])
  }

  lemma JoinedCons(line: string, a: seq<string>, b: seq<string>)
    requires a != [] && b != []
    ensures Joined([line] + a, b) == [line] + Joined(a, b)
  {
    assert ([line] + a)[..|a|] == [line] + a[..|a| - 1];
  }

  lemma JoinedSingle(line: string, b: seq<string>)
    requires b != []
    ensures Joined([line], b) == [line + b[0]] + b[1..]
  {
  }

  lemma LinesCons(s: string, k: nat)
    requires k < |s| && s[k] == '\n' && '\n' !in s[..k]
    ensures Lines(s) == [StripCr(s[..k])] + Lines(s[k + 1..])
  {
    NewlineIndexUnique(s, k);
  }

  lemma LinesSingle(s: string)
    requires s != "" && '\n' !in s
    ensures Lines(s) == [s]
  {
    assert s[..|s|] == s;
    NewlineIndexUnique(s, |s|);
  }

  lemma LinesFirst(t: string)
    requires t != "" && t[0] != '\n' && t[0] != '\r'
    ensures Lines(t) != [] && Lines(t)[0] != "" && Lines(t)[0][0] == t[0]
  {
    var k := NewlineIndex(t);
    if k < |t| {
      assert t[..k] != "" && t[..k][0] == t[0];
      LinesCons(t, k);
    }
  }

  /** The step of `LinesJoin`: a first line that is finished. */
  lemma LinesJoinFirst(s: string, t: string, k: nat)
    requires k < |s| && s[k] == '\n' && '\n' !in s[..k]
    ensures Lines(s) == [StripCr(s[..k])] + Lines(s[k + 1..])
    ensures Lines(s + t) == [StripCr(s[..k])] + Lines(s[k + 1..] + t)
  {
    LinesCons(s, k);
    assert (s + t)[..k] == s[..k];
    assert (s + t)[k + 1..] == s[k + 1..] + t;
    LinesCons(s + t, k);
  }

  lemma Unfinished(s: string, k: nat)
    requires !EndsLine(s) && k < |s| && s[k] == '\n'
    ensures !EndsLine(s[k + 1..])
  {
    assert s[k + 1..][|s| - k - 2] == s[|s| - 1];
  }

  lemma {:induction false} LinesLast(s: string)
    requires !EndsLine(s)
    ensures Lines(s) != [] && Lines(s)[|Lines(s)| - 1] != ""
    decreases |s|
  {
    var k := NewlineIndex(s);
    if k < |s| {
      Unfinished(s, k);
      LinesCons(s, k);
      LinesLast(s[k + 1..]);
    }
  }

  lemma {:induction false} LinesJoin(s: string, t: string)
    requires !EndsLine(s) && t != "" && t[0] != '\n' && t[0] != '\r'
    ensures Lines(s) != [] && Lines(t) != [] && Lines(s + t) == Joined(Lines(s), Lines(t))
    decreases |s|
  {
    LinesFirst(t);
    var k := NewlineIndex(s);
    if k == |s| {
      assert s[..k] == s;
      LinesSingle(s);
      LinesJoinLast(s, t);
      JoinedSingle(s, Lines(t));
    } else {
      Unfinished(s, k);
      LinesJoin(s[k + 1..], t);
      LinesJoinStep(s, t, k);
    }
  }

  lemma LinesJoinStep(s: string, t: string, k: nat)
    requires k < |s| && s[k] == '\n' && '\n' !in s[..k]
    requires Lines(s[k + 1..]) != [] && Lines(t) != [] && Lines(s[k + 1..] + t) == Joined(Lines(s[k + 1..]), Lines(t))
    ensures Lines(s) != [] && Lines(s + t) == Joined(Lines(s), Lines(t))
  {
    LinesJoinFirst(s, t, k);
    JoinedCons(StripCr(s[..k]), Lines(s[k + 1..]), Lines(t));
  }

  lemma LinesJoinLast(s: string, t: string)
    requires s != "" && '\n' !in s && t != "" && t[0] != '\n' && Lines(t) != []
    ensures Lines(s + t) == [s + Lines(t)[0]] + Lines(t)[1..]
  {
    var k := NewlineIndex(t);
    if k == |t| {
      assert t[..k] == t;
      LinesSingle(t);
      LinesSingle(s + t);
    } else {
      LinesCons(t, k);
      LinesLonger(s, t, k);
    }
  }

  lemma LinesLonger(s: string, t: string, k: nat)
    requires '\n' !in s && 0 < k < |t| && t[k] == '\n' && '\n' !in t[..k]
    ensures Lines(s + t) == [s + StripCr(t[..k])] + Lines(t[k + 1..])
  {
    var text, n := s + t, |s| + k;
    assert text[..n] == s + t[..k];
    assert text[n + 1..] == t[k + 1..];
    LinesCons(text, n);
    StripJoin(s, t[..k]);
  }

  lemma StripJoin(s: string, t: string)
    requires t != ""
    ensures StripCr(s + t) == s + StripCr(t)
  {
  }

  // ---------------------------------------------------------------- a line that swallows the header

  /** Prefix tests on an unfinished line do not see what is appended to it. */
  lemma PrefixOfMerged(prefix: string, line: string, header: string)
    requires line != "" && header != "" && header[0] == 'd'
    requires prefix != "" && 'd' !in prefix[1..]
    ensures prefix <= line + header <==> prefix <= line
  {
    if |line| < |prefix| {
      assert prefix[|line|] == prefix[1..][|line| - 1];
      assert (line + header)[|line|] == 'd';
    } else {
      assert (line + header)[..|prefix|] == line[..|prefix|];
    }
  }

  lemma MergedTests(line: string, header: string)
    requires line != "" && header != "" && header[0] == 'd'
    ensures "diff --git " <= line + header <==> "diff --git " <= line
    ensures "@@ " <= line + header <==> "@@ " <= line
    ensures "+++ " <= line + header <==> "+++ " <= line
    ensures "--- " <= line + header <==> "--- " <= line
    ensures "+" <= line + header <==> "+" <= line
    ensures "-" <= line + header <==> "-" <= line
  {
    PrefixOfMerged("diff --git ", line, header);
    PrefixOfMerged("@@ ", line, header);
    PrefixOfMerged("+++ ", line, header);
    PrefixOfMerged("--- ", line, header);
    PrefixOfMerged("+", line, header);
    PrefixOfMerged("-", line, header);
  }

  lemma {:induction false} TrimStartKeeps(s: string, t: string)
    requires t != "" && !IsWhite(t[0])
    ensures TrimStart(s + t) == TrimStart(s) + t
  {
    if s == "" {
      assert s + t == t;
    } else if IsWhite(s[0]) {
      assert (s + t)[1..] == s[1..] + t;
      TrimStartKeeps(s[1..], t);
    }
  }

  /** A path that has swallowed the section header is a path. */
  lemma SwallowedIsPath(path: string)
    ensures NormalizeDiffPath(path + HEADER).Some?
  {
    var word := "diff --git";
    TrimStartKeeps(path, HEADER);
    var head := TrimStart(path) + word;
    assert TrimStart(path) + HEADER == head + " ";
    assert head[|head| - 1] == 't';
    TrimEndAfter(head, " ");
    assert TrimEnd("") == "";
    assert " "[..0] == "";
    assert Trim(path + HEADER) == head;
    assert "/dev/null"[8] == 'l';
  }

  /** If the merged header leaves no path and no hunk, the unfinished line and the header act as two lines. */
  lemma MergedActsAsTwo(alnum: char -> bool, s: Scan, line: string, header: string)
    requires line != "" && HEADER <= header
    requires Step(alnum, s, line + HEADER).path.None? && !Step(alnum, s, line + HEADER).inHunk
    ensures Step(alnum, s, line + header) == Step(alnum, Step(alnum, s, line), header)
  {
    assert header[0] == HEADER[0] == 'd';
    MergedTests(line, header);
    MergedTests(line, HEADER);
    if !s.inHunk && "+++ " <= line {
      assert (line + HEADER)[4..] == line[4..] + HEADER;
      SwallowedIsPath(line[4..]);
    }
  }

  /** What the merged line adds to the counts, give or take the line itself. */
  lemma MergedCounts(alnum: char -> bool, s: Scan, line: string)
    ensures
      var merged, alone := Step(alnum, s, line + HEADER).total, Step(alnum, s, line).total;
      merged.added + 1 >= alone.added && |merged.fingerprints| + 1 >= |alone.fingerprints|
  {
  }

  // ---------------------------------------------------------------- the parse of both

  /** The parse of an unfinished diff and a second one, line by line. */
  lemma ParseJoin(alnum: char -> bool, one: string, two: string)
    requires !EndsLine(one) && HEADER <= two
    ensures
      var a, b := Lines(one), Lines(two);
      && a != [] && a[|a| - 1] != "" && b != []
      && (var s := Parse(alnum, START, a[..|a| - 1]);
          && Parse(alnum, START, a) == Step(alnum, s, a[|a| - 1])
          && Parse(alnum, START, Lines(one + two)) == Parse(alnum, Step(alnum, s, a[|a| - 1] + b[0]), b[1..]))
  {
    assert two[0] == HEADER[0] == 'd';
    LinesJoin(one, two);
    LinesLast(one);
    var a, b := Lines(one), Lines(two);
    assert a == a[..|a| - 1] + ([a[|a| - 1]] + []);
    ParseOne(alnum, a[..|a| - 1], a[|a| - 1], []);
    ParseOne(alnum, a[..|a| - 1], a[|a| - 1] + b[0], b[1..]);
  }

  lemma ParseOne(alnum: char -> bool, front: seq<string>, line: string, rest: seq<string>)
    ensures Parse(alnum, START, front + ([line] + rest)) == Parse(alnum, Step(alnum, Parse(alnum, START, front), line), rest)
  {
    ParseAppend(alnum, START, front, [line] + rest);
    assert ([line] + rest)[1..] == rest;
  }

  lemma HeaderLines()
    ensures Lines(HEADER) == [HEADER]
  {
    assert HEADER[..|HEADER|] == HEADER;
    NewlineIndexUnique(HEADER, |HEADER|);
  }

  lemma ResetsMeans(alnum: char -> bool, one: string)
    requires !EndsLine(one)
    ensures
      var a := Lines(one);
      a != [] &&
      var merged := Step(alnum, Parse(alnum, START, a[..|a| - 1]), a[|a| - 1] + HEADER);
      Resets(alnum, one) <==> merged.path.None? && !merged.inHunk
  {
    HeaderLines();
    ParseJoin(alnum, one, HEADER);
    assert [HEADER][1..] == [];
  }

  lemma Sufficient(alnum: char -> bool, one: string, two: string)
    requires HEADER <= two && Resets(alnum, one)
    ensures Composes(alnum, one, two)
  {
    if EndsLine(one) {
      SummarizeIsCompositional(alnum, one, two);
    } else {
      ResetsMeans(alnum, one);
      ParseJoin(alnum, one, two);
      var a, b := Lines(one), Lines(two);
      SectionLine(two);
      MergedActsAsTwo(alnum, Parse(alnum, START, a[..|a| - 1]), a[|a| - 1], b[0]);
      SectionAdds(alnum, Parse(alnum, START, a), b);
    }
  }

  /** From any scan state, a list of lines that starts a section adds what it adds on its own. */
  lemma SectionAdds(alnum: char -> bool, s: Scan, lines: seq<string>)
    requires lines != [] && HEADER <= lines[0]
    ensures Parse(alnum, Step(alnum, s, lines[0]), lines[1..]).total == s.total.Plus(Parse(alnum, START, lines).total)
  {
    ParseAccumulates(alnum, Step(alnum, s, lines[0]), lines[1..]);
    ParseAccumulates(alnum, Step(alnum, START, lines[0]), lines[1..]);
  }

  // ---------------------------------------------------------------- a second diff that tells

  /** A section of two lines `line`. */
  function Twice(line: string): string {
    Unlines([HEADER, line, line])
  }

  lemma TwiceLines(line: string)
    requires '\n' !in line && StripCr(line) == line
    ensures Lines(Twice(line)) == [HEADER, line, line] && HEADER <= Twice(line)
  {
    LinesOfUnlines([HEADER, line, line]);
    var all := [HEADER, line, line];
    assert all[1..] == [line, line] && all[1..][1..] == [line] && all[1..][1..][1..] == [];
    assert StripAll([line]) == [line];
    assert StripAll([line, line]) == [line] + StripAll([line]);
    assert StripAll(all) == [HEADER] + StripAll([line, line]);
    assert Twice(line) == HEADER + "\n" + Unlines([line, line]);
  }

  lemma ParseTwo(alnum: char -> bool, s: Scan, line: string)
    ensures Parse(alnum, s, [line, line]) == Step(alnum, Step(alnum, s, line), line)
  {
    assert [line, line][1..] == [line] && [line][1..] == [];
    var next := Step(alnum, s, line);
    assert Parse(alnum, next, [line]) == Parse(alnum, Step(alnum, next, line), []);
  }

  /** What `Twice(line)` is summarised as, alone and after an unfinished diff. */
  lemma TwiceSummaries(alnum: char -> bool, one: string, line: string)
    requires !EndsLine(one) && '\n' !in line && StripCr(line) == line
    ensures
      var a := Lines(one);
      a != [] &&
      var s := Parse(alnum, START, a[..|a| - 1]);
      && Summarize(alnum, Twice(line)) == Step(alnum, Step(alnum, START, line), line).total
      && Summarize(alnum, one) == Step(alnum, s, a[|a| - 1]).total
      && Summarize(alnum, one + Twice(line)) == Step(alnum, Step(alnum, Step(alnum, s, a[|a| - 1] + HEADER), line), line).total
  {
    TwiceLines(line);
    ParseJoin(alnum, one, Twice(line));
    var all := [HEADER, line, line];
    assert all[1..] == [line, line];
    ParseTwo(alnum, START, line);
    var a := Lines(one);
    ParseTwo(alnum, Step(alnum, Parse(alnum, START, a[..|a| - 1]), a[|a| - 1] + HEADER), line);
    assert Step(alnum, START, HEADER) == START;
  }

  const FILE_LINE := "+++ b"

  /** Inside a hunk, file headers count as added lines. */
  lemma HunkTells(alnum: char -> bool, s: Scan)
    requires s.inHunk
    ensures
      var once := Step(alnum, s, FILE_LINE);
      once.inHunk && once.total.added == s.total.added + 1
    ensures Step(alnum, START, FILE_LINE).total.added == 0 && !Step(alnum, START, FILE_LINE).inHunk
    ensures
      var after := Step(alnum, START, FILE_LINE);
      Step(alnum, after, FILE_LINE).total.added == 0
  {
    assert FILE_LINE[0] == '+';
  }

  const EFFECTIVE := "a___"

  lemma EffectiveLine(alnum: char -> bool)
    ensures NormalizeEffectiveLine(alnum, EFFECTIVE) == Some(EFFECTIVE)
  {
    WordLengthIs(EFFECTIVE, 4);
    assert EFFECTIVE[..4] == EFFECTIVE && EFFECTIVE[4..] == "";
    assert Words(EFFECTIVE) == [EFFECTIVE];
    assert Join([EFFECTIVE]) == EFFECTIVE;
    assert EFFECTIVE[1..] == "___" && "___"[1..] == "__" && "__"[1..] == "_" && "_"[1..] == "";
    assert Utf8Length("_") == 1 && Utf8Length("__") == 2 && Utf8Length("___") == 3;
    assert EFFECTIVE[1] == '_';
  }

  /** Under a path, an effective added line leaves a fingerprint. */
  lemma PathTells(alnum: char -> bool, s: Scan)
    requires s.path.Some? && !s.inHunk
    ensures
      var once := Step(alnum, s, "+" + EFFECTIVE);
      once.path == s.path && !once.inHunk && |once.total.fingerprints| == |s.total.fingerprints| + 1
  {
    var line := "+" + EFFECTIVE;
    EffectiveLine(alnum);
    assert line[1..] == EFFECTIVE;
    assert line[0] == '+' && line[1] == 'a';
  }

  lemma NoPathTells(alnum: char -> bool, s: Scan)
    requires s.path.None? && !s.inHunk
    ensures
      var once := Step(alnum, s, "+" + EFFECTIVE);
      once.path.None? && !once.inHunk && once.total.fingerprints == s.total.fingerprints
  {
    var line := "+" + EFFECTIVE;
    assert line[0] == '+' && line[1] == 'a';
  }

  /** The scan states before the unfinished last line of `one`, and after it with a header appended. */
  predicate Merges(alnum: char -> bool, one: string, s: Scan, last: string, merged: Scan) {
    var a := Lines(one);
    a != [] && s == Parse(alnum, START, a[..|a| - 1]) && last == a[|a| - 1] && merged == Step(alnum, s, last + HEADER)
  }

  lemma HunkFails(alnum: char -> bool, one: string, s: Scan, last: string, merged: Scan)
    requires !EndsLine(one) && Merges(alnum, one, s, last, merged) && merged.inHunk
    ensures !Composes(alnum, one, Twice(FILE_LINE))
  {
    TwiceSummaries(alnum, one, FILE_LINE);
    MergedCounts(alnum, s, last);
    HunkTells(alnum, merged);
    HunkTells(alnum, Step(alnum, merged, FILE_LINE));
  }

  lemma PathFails(alnum: char -> bool, one: string, s: Scan, last: string, merged: Scan)
    requires !EndsLine(one) && Merges(alnum, one, s, last, merged) && merged.path.Some? && !merged.inHunk
    ensures !Composes(alnum, one, Twice("+" + EFFECTIVE))
  {
    var line := "+" + EFFECTIVE;
    TwiceSummaries(alnum, one, line);
    MergedCounts(alnum, s, last);
    PathTells(alnum, merged);
    PathTells(alnum, Step(alnum, merged, line));
    NoPathTells(alnum, START);
    NoPathTells(alnum, Step(alnum, START, line));
  }

  /** A diff after which the header does not take effect fails to compose with some section. */
  lemma Necessary(alnum: char -> bool, one: string) returns (two: string)
    requires !EndsLine(one) && !Resets(alnum, one)
    ensures HEADER <= two && !Composes(alnum, one, two)
  {
    ResetsMeans(alnum, one);
    var a := Lines(one);
    var s, last := Parse(alnum, START, a[..|a| - 1]), a[|a| - 1];
    var merged := Step(alnum, s, last + HEADER);
    if merged.inHunk {
      two := Twice(FILE_LINE);
      TwiceLines(FILE_LINE);
      HunkFails(alnum, one, s, last, merged);
    } else {
      two := Twice("+" + EFFECTIVE);
      TwiceLines("+" + EFFECTIVE);
      PathFails(alnum, one, s, last, merged);
    }
  }

  lemma EndedLineResets(alnum: char -> bool, one: string)
    requires EndsLine(one)
    ensures Resets(alnum, one)
  {
    LinesAppend(one, HEADER);
    HeaderLines();
    ParseOne(alnum, Lines(one), HEADER, []);
    assert [HEADER] + [] == [HEADER];
  }

  lemma IgnorableMeans(alnum: char -> bool, s: Scan, last: string)
    requires last != ""
    ensures
      var merged := Step(alnum, s, last + HEADER);
      Ignorable(s, last) <==> merged.path.None? && !merged.inHunk
  {
    MergedTests(last, HEADER);
    if "+++ " <= last {
      assert (last + HEADER)[4..] == last[4..] + HEADER;
      SwallowedIsPath(last[4..]);
    }
  }

  lemma SeparableMeans(alnum: char -> bool, one: string)
    ensures Separable(alnum, one) <==> Resets(alnum, one)
  {
    if EndsLine(one) {
      EndedLineResets(alnum, one);
    } else {
      ResetsMeans(alnum, one);
      ParseJoin(alnum, one, HEADER);
      var lines := Lines(one);
      IgnorableMeans(alnum, Parse(alnum, START, lines[..|lines| - 1]), lines[|lines| - 1]);
    }
  }

  /** Composition holds for every second diff exactly when the first one is separable. */
  lemma CompositionIff(alnum: char -> bool, one: string)
    ensures Separable(alnum, one) <==> forall two :: HEADER <= two ==> Composes(alnum, one, two)
  {
    SeparableMeans(alnum, one);
    if Resets(alnum, one) {
      forall two | HEADER <= two
        ensures Composes(alnum, one, two)
      {
        Sufficient(alnum, one, two);
      }
    } else {
      var two := Necessary(alnum, one);
    }
  }
}
