/**
 The string operations the diff summariser relies on: line splitting, whitespace words,
 trimming and UTF-8 length, with the laws used about them.
 */
module Text {

  /** The characters with the Unicode White_Space property. */
  predicate IsWhite(c: char) {
    var n := c as int;
    || 9 <= n <= 13 || n == 0x20 || n == 0x85 || n == 0xA0 || n == 0x1680
    || 0x2000 <= n <= 0x200A || n == 0x2028 || n == 0x2029 || n == 0x202F || n == 0x205F || n == 0x3000
  }

  predicate IsWord(s: string) {
    s != "" && forall i :: 0 <= i < |s| ==> !IsWhite(s[i])
  }

  function Utf8Length(s: string): nat {
    if s == "" then 0
    else
      var n := s[0] as int;
      (if n < 0x80 then 1 else if n < 0x800 then 2 else if n < 0x10000 then 3 else 4) + Utf8Length(s[1..])
  }

  function Pow2(k: nat): nat {
    if k == 0 then 1 else 2 * Pow2(k - 1)
  }

  /** How many bits of a code point `k` bytes of UTF-8 carry. */
  function Utf8Bits(k: nat): nat {
    if k == 1 then 7 else 5 * k + 1
  }

  /** A character takes the fewest bytes whose bits hold its code point. */
  lemma Utf8LengthOfChar(c: char, rest: string)
    ensures
      var k := Utf8Length([c] + rest) - Utf8Length(rest);
      && 1 <= k <= 4 && c as int < Pow2(Utf8Bits(k))
      && (k > 1 ==> c as int >= Pow2(Utf8Bits(k - 1)))
  {
    assert ([c] + rest)[1..] == rest;
    assert Pow2(7) == 0x80;
    assert Pow2(11) == 0x800;
    assert Pow2(16) == 0x10000;
    assert Pow2(21) == 0x200000;
  }

  // ---------------------------------------------------------------- lines

  /** The index of the first newline, or the length when there is none. */
  function NewlineIndex(s: string): (k: nat)
    ensures k <= |s| && (k < |s| ==> s[k] == '\n') && '\n' !in s[..k]
  {
    if s == "" || s[0] == '\n' then 0 else 1 + NewlineIndex(s[1..])
  }

  function StripCr(line: string): string {
    if line != "" && line[|line| - 1] == '\r' then line[..|line| - 1] else line
  }

  /** Lines end at a newline, whose preceding carriage return belongs to the line ending;
      a last line without a newline is kept as it is. */
  function Lines(s: string): seq<string> {
    if s == "" then []
    else
      var k := NewlineIndex(s);
      if k == |s| then [s] else [StripCr(s[..k])] + Lines(s[k + 1..])
  }

  /** Text made of newline-terminated lines. */
  function Unlines(lines: seq<string>): string {
    if lines == [] then "" else lines[0] + "\n" + Unlines(lines[1..])
  }

  function StripAll(lines: seq<string>): seq<string> {
    if lines == [] then [] else [StripCr(lines[0])] + StripAll(lines[1..])
  }

  predicate EndsLine(s: string) {
    s == "" || s[|s| - 1] == '\n'
  }

  lemma {:induction false} NewlineIndexUnique(s: string, k: nat)
    requires k <= |s| && (k < |s| ==> s[k] == '\n') && '\n' !in s[..k]
    ensures NewlineIndex(s) == k
  {
    if k > 0 {
      assert s[0] == s[..k][0];
      assert s[1..][..k - 1] == s[..k][1..];
      NewlineIndexUnique(s[1..], k - 1);
    }
  }

  /** Splitting distributes over concatenation at a line boundary. */
  lemma {:induction false} LinesAppend(s: string, t: string)
    requires EndsLine(s)
    ensures Lines(s + t) == Lines(s) + Lines(t)
    decreases |s|
  {
    if s == "" {
      assert s + t == t;
    } else {
      var k := NewlineIndex(s);
      assert s[..|s|] == s && s[|s| - 1] in s;
      assert (s + t)[..k] == s[..k];
      NewlineIndexUnique(s + t, k);
      assert (s + t)[k + 1..] == s[k + 1..] + t;
      LinesAppend(s[k + 1..], t);
    }
  }

  lemma {:induction false} LinesOfUnlines(lines: seq<string>)
    requires forall i :: 0 <= i < |lines| ==> '\n' !in lines[i]
    ensures Lines(Unlines(lines)) == StripAll(lines)
    ensures EndsLine(Unlines(lines))
  {
    if lines != [] {
      var text, k := Unlines(lines), |lines[0]|;
      assert text[..k] == lines[0];
      NewlineIndexUnique(text, k);
      assert text[k + 1..] == Unlines(lines[1..]);
      LinesOfUnlines(lines[1..]);
    }
  }

  lemma {:induction false} StripAllAppend(one: seq<string>, two: seq<string>)
    ensures StripAll(one + two) == StripAll(one) + StripAll(two)
  {
    if one == [] {
      assert one + two == two;
    } else {
      assert (one + two)[1..] == one[1..] + two;
      StripAllAppend(one[1..], two);
    }
  }

  // ---------------------------------------------------------------- words

  function WordLength(s: string): (k: nat)
    ensures k <= |s| && (forall i :: 0 <= i < k ==> !IsWhite(s[i])) && (k < |s| ==> IsWhite(s[k]))
  {
    if s == "" || IsWhite(s[0]) then 0 else 1 + WordLength(s[1..])
  }

  /** The maximal runs of characters that are not white space. */
  function Words(s: string): (ws: seq<string>)
    ensures forall i :: 0 <= i < |ws| ==> IsWord(ws[i])
    decreases |s|
  {
    if s == "" then []
    else if IsWhite(s[0]) then Words(s[1..])
    else [s[..WordLength(s)]] + Words(s[WordLength(s)..])
  }

  function Join(words: seq<string>): string {
    if words == [] then ""
    else if |words| == 1 then words[0]
    else words[0] + " " + Join(words[1..])
  }

  lemma {:induction false} WordLengthIs(s: string, k: nat)
    requires k <= |s| && (forall i :: 0 <= i < k ==> !IsWhite(s[i])) && (k < |s| ==> IsWhite(s[k]))
    ensures WordLength(s) == k
  {
    if k > 0 {
      WordLengthIs(s[1..], k - 1);
    }
  }

  lemma {:induction false} WordsOfJoin(words: seq<string>)
    requires forall i :: 0 <= i < |words| ==> IsWord(words[i])
    ensures Words(Join(words)) == words
  {
    if words != [] {
      var s, k := Join(words), |words[0]|;
      assert s[..k] == words[0];
      WordLengthIs(s, k);
      if |words| == 1 {
        assert s[k..] == "";
      } else {
        assert s[k..] == " " + Join(words[1..]);
        assert s[k..][1..] == Join(words[1..]);
        WordsOfJoin(words[1..]);
      }
    }
  }

  /** White space at the end adds no word. */
  lemma {:induction false} WordsIgnoreTrailing(s: string, c: char)
    requires IsWhite(c)
    ensures Words(s + [c]) == Words(s)
    decreases |s|
  {
    if s == "" {
      assert (s + [c])[1..] == "";
    } else if IsWhite(s[0]) {
      assert (s + [c])[1..] == s[1..] + [c];
      WordsIgnoreTrailing(s[1..], c);
    } else {
      var k := WordLength(s);
      WordLengthIs(s + [c], k);
      assert (s + [c])[..k] == s[..k];
      assert (s + [c])[k..] == s[k..] + [c];
      WordsIgnoreTrailing(s[k..], c);
    }
  }

  lemma WordsIgnoreCr(s: string)
    ensures Words(StripCr(s)) == Words(s)
  {
    if StripCr(s) != s {
      assert s == StripCr(s) + ['\r'];
      WordsIgnoreTrailing(StripCr(s), '\r');
    }
  }

  // ---------------------------------------------------------------- trimming

  function TrimStart(s: string): string {
    if s != "" && IsWhite(s[0]) then TrimStart(s[1..]) else s
  }

  function TrimEnd(s: string): string {
    if s != "" && IsWhite(s[|s| - 1]) then TrimEnd(s[..|s| - 1]) else s
  }

  function Trim(s: string): string {
    TrimEnd(TrimStart(s))
  }

  /** Trimming stops at a visible first character. */
  lemma {:induction false} TrimEndAfter(head: string, tail: string)
    requires head != "" && !IsWhite(head[|head| - 1])
    ensures TrimEnd(head + tail) == head + TrimEnd(tail)
    decreases |tail|
  {
    if tail != "" && IsWhite(tail[|tail| - 1]) {
      assert (head + tail)[..|head + tail| - 1] == head + tail[..|tail| - 1];
      TrimEndAfter(head, tail[..|tail| - 1]);
    } else if tail == "" {
      assert head + tail == head;
    }
  }

  lemma {:induction false} TrimStartMeans(lead: string, s: string)
    requires AllWhite(lead) && (s == "" || !IsWhite(s[0]))
    ensures TrimStart(lead + s) == s
  {
    if lead == "" {
      assert lead + s == s;
    } else {
      assert (lead + s)[0] == lead[0] && (lead + s)[1..] == lead[1..] + s;
      TrimStartMeans(lead[1..], s);
    }
  }

  lemma {:induction false} TrimEndOfWhite(s: string)
    requires AllWhite(s)
    ensures TrimEnd(s) == ""
  {
    if s != "" {
      TrimEndOfWhite(s[..|s| - 1]);
    }
  }

  /** Trimming takes off the white space at both ends and nothing else. */
  lemma TrimMeans(lead: string, s: string, tail: string)
    requires AllWhite(lead) && AllWhite(tail) && (s == "" || (!IsWhite(s[0]) && !IsWhite(s[|s| - 1])))
    ensures Trim(lead + s + tail) == s
  {
    if s == "" {
      assert lead + s + tail == (lead + tail) + "";
      TrimStartMeans(lead + tail, "");
    } else {
      assert lead + s + tail == lead + (s + tail);
      TrimStartMeans(lead, s + tail);
      TrimEndAfter(s, tail);
      TrimEndOfWhite(tail);
    }
  }

  lemma TrimEndIgnoresCr(s: string)
    ensures TrimEnd(StripCr(s)) == TrimEnd(s)
  {
  }

  // ---------------------------------------------------------------- lines as words and gaps

  predicate AllWhite(s: string) {
    forall i :: 0 <= i < |s| ==> IsWhite(s[i])
  }

  predicate AllWords(words: seq<string>) {
    forall i :: 0 <= i < |words| ==> IsWord(words[i])
  }

  /** White space around the words; between two words there is some. */
  predicate Separates(gaps: seq<string>, words: seq<string>) {
    && |gaps| == |words| + 1
    && (forall i :: 0 <= i < |gaps| ==> AllWhite(gaps[i]))
    && (forall i :: 0 < i < |words| ==> gaps[i] != "")
  }

  function Spread(words: seq<string>, gaps: seq<string>): string
    requires |gaps| == |words| + 1
  {
    if words == [] then gaps[0] else gaps[0] + words[0] + Spread(words[1..], gaps[1..])
  }

  /** One blank between two words, nothing around them. */
  function Blanks(n: nat): seq<string> {
    seq(n + 1, i => if 0 < i < n then " " else "")
  }

  lemma {:induction false} WordsAfterWhite(gap: string, s: string)
    requires AllWhite(gap)
    ensures Words(gap + s) == Words(s)
  {
    if gap == "" {
      assert gap + s == s;
    } else {
      assert (gap + s)[0] == gap[0] && (gap + s)[1..] == gap[1..] + s;
      WordsAfterWhite(gap[1..], s);
    }
  }

  lemma WordsAfterWord(word: string, s: string)
    requires IsWord(word) && (s == "" || IsWhite(s[0]))
    ensures Words(word + s) == [word] + Words(s)
  {
    var t := word + s;
    assert t[0] == word[0];
    WordLengthIs(t, |word|);
    assert t[..|word|] == word && t[|word|..] == s;
  }

  /** Whatever the white space, the words of a line are its words. */
  lemma {:induction false} WordsOfSpread(words: seq<string>, gaps: seq<string>)
    requires AllWords(words) && Separates(gaps, words)
    ensures Words(Spread(words, gaps)) == words
  {
    if words == [] {
      assert gaps[0] + "" == gaps[0];
      WordsAfterWhite(gaps[0], "");
    } else {
      var rest := Spread(words[1..], gaps[1..]);
      assert Spread(words, gaps) == gaps[0] + (words[0] + rest);
      WordsAfterWhite(gaps[0], words[0] + rest);
      SpreadStartsWhite(words[1..], gaps[1..]);
      WordsAfterWord(words[0], rest);
      WordsOfSpread(words[1..], gaps[1..]);
    }
  }

  lemma SpreadStartsWhite(words: seq<string>, gaps: seq<string>)
    requires |gaps| == |words| + 1 && AllWhite(gaps[0]) && (words != [] ==> gaps[0] != "")
    ensures Spread(words, gaps) == "" || IsWhite(Spread(words, gaps)[0])
  {
  }

  lemma Regroup(a: string, b: string, c: string)
    ensures a + b + c == a + ("" + b + c) && "" + b + c == b + c
  {
  }

  lemma SpreadFirstGap(words: seq<string>, gaps: seq<string>)
    requires |gaps| == |words| + 1
    ensures Spread(words, gaps) == gaps[0] + Spread(words, [""] + gaps[1..])
  {
    var other := [""] + gaps[1..];
    assert other[1..] == gaps[1..] && other[0] == "";
    if words == [] {
      assert gaps[0] + "" == gaps[0];
    } else {
      Regroup(gaps[0], words[0], Spread(words[1..], gaps[1..]));
    }
  }

  lemma BlanksTail(n: nat)
    requires n > 1
    ensures Blanks(n)[1] == " " && [""] + Blanks(n)[1..][1..] == Blanks(n - 1)
  {
  }

  lemma {:induction false} JoinIsSpread(words: seq<string>)
    ensures Join(words) == Spread(words, Blanks(|words|))
  {
    var gaps := Blanks(|words|);
    if |words| == 1 {
      assert words[1..] == [] && gaps[1..] == [""];
      assert "" + words[0] + "" == words[0];
    } else if words != [] {
      JoinIsSpread(words[1..]);
      BlanksTail(|words|);
      SpreadFirstGap(words[1..], gaps[1..]);
      assert "" + words[0] + (" " + Join(words[1..])) == words[0] + " " + Join(words[1..]);
    }
  }

  /** Every line is some words with white space around them. */
  lemma {:induction false} EveryLineIsSpread(s: string) returns (gaps: seq<string>)
    ensures Separates(gaps, Words(s)) && s == Spread(Words(s), gaps)
    decreases |s|
  {
    if s == "" {
      gaps := [""];
    } else if IsWhite(s[0]) {
      var rest := EveryLineIsSpread(s[1..]);
      gaps := [[s[0]] + rest[0]] + rest[1..];
      MoreWhite(s, rest, gaps);
    } else {
      var k := WordLength(s);
      var rest := EveryLineIsSpread(s[k..]);
      gaps := [""] + rest;
      AnotherWord(s, rest, gaps);
    }
  }

  lemma MoreWhite(s: string, rest: seq<string>, gaps: seq<string>)
    requires s != "" && IsWhite(s[0]) && Separates(rest, Words(s[1..])) && s[1..] == Spread(Words(s[1..]), rest)
    requires gaps == [[s[0]] + rest[0]] + rest[1..]
    ensures Separates(gaps, Words(s)) && s == Spread(Words(s), gaps)
  {
    var words := Words(s);
    assert words == Words(s[1..]) && gaps[1..] == rest[1..];
    assert s == [s[0]] + s[1..];
    if words != [] {
      var tail := Spread(words[1..], rest[1..]);
      assert [s[0]] + (rest[0] + words[0] + tail) == ([s[0]] + rest[0]) + words[0] + tail;
    }
  }

  lemma AnotherWord(s: string, rest: seq<string>, gaps: seq<string>)
    requires s != "" && !IsWhite(s[0])
    requires
      var after := s[WordLength(s)..];
      Separates(rest, Words(after)) && after == Spread(Words(after), rest)
    requires gaps == [""] + rest
    ensures Separates(gaps, Words(s)) && s == Spread(Words(s), gaps)
  {
    var k := WordLength(s);
    var word, after := s[..k], s[k..];
    assert Words(s) == [word] + Words(after) && s == word + after;
    assert after == "" || IsWhite(after[0]);
    GapAhead(Words(after), rest, after);
    WordSeparates(word, Words(after), rest);
    SpreadWord(word, Words(after), rest);
  }

  lemma GapAhead(words: seq<string>, gaps: seq<string>, s: string)
    requires AllWords(words) && |gaps| == |words| + 1 && s == Spread(words, gaps) && (s == "" || IsWhite(s[0]))
    ensures words != [] ==> gaps[0] != ""
  {
    if words != [] && gaps[0] == "" {
      NoGap(words, gaps);
      assert false;
    }
  }

  lemma SpreadWord(word: string, words: seq<string>, gaps: seq<string>)
    requires |gaps| == |words| + 1
    ensures Spread([word] + words, [""] + gaps) == word + Spread(words, gaps)
  {
    assert ([word] + words)[1..] == words && ([""] + gaps)[1..] == gaps;
    Regroup("", word, Spread(words, gaps));
  }

  lemma WordSeparates(word: string, words: seq<string>, gaps: seq<string>)
    requires Separates(gaps, words) && (words != [] ==> gaps[0] != "")
    ensures Separates([""] + gaps, [word] + words)
  {
    var all := [""] + gaps;
    forall i | 0 <= i < |all|
      ensures AllWhite(all[i]) && (0 < i < |words| + 1 ==> all[i] != "")
    {
      if i > 0 {
        assert all[i] == gaps[i - 1];
      }
    }
  }

  /** Without a gap in front, a line starts with a word. */
  lemma NoGap(words: seq<string>, gaps: seq<string>)
    requires words != [] && IsWord(words[0]) && |gaps| == |words| + 1 && gaps[0] == ""
    ensures Spread(words, gaps) != "" && !IsWhite(Spread(words, gaps)[0])
  {
    Regroup("", words[0], Spread(words[1..], gaps[1..]));
  }
}
