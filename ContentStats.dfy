/** The statistics shown beside an analysis: characters, words, sentences,
    paragraphs and the estimated reading time of the extracted text. */
module ContentStats {
  import opened PyText

  // ---------------------------------------------------------------------
  // Words: `str.split()` without arguments

  /** Length of the leading run of non-whitespace characters. */
  function WordLength(s: string): (n: nat)
    ensures n <= |s| && forall i | 0 <= i < n :: !IsSpace(s[i])
    ensures n == |s| || IsSpace(s[n])
  {
    if s != [] && !IsSpace(s[0]) then 1 + WordLength(s[1..]) else 0
  }

  predicate NotSpace(c: char) {
    !IsSpace(c)
  }

  predicate IsWord(w: string) {
    w != [] && forall i | 0 <= i < |w| :: !IsSpace(w[i])
  }

  /** `s.split()`: the maximal runs of non-whitespace, in order. */
  function Words(s: string): (r: seq<string>)
    ensures forall i | 0 <= i < |r| :: IsWord(r[i])
    decreases |s|
  {
    var a := LeadingSpace(s);
    if a == |s| then []
    else
      var t := s[a..];
      var n := WordLength(t);
      assert t[0] == s[a];
      [t[..n]] + Words(t[n..])
  }

  /** Put together, the words are exactly the non-whitespace characters. */
  lemma {:induction false} WordsAreTheSolidText(s: string)
    ensures Concat(Words(s)) == Keep(s, NotSpace)
    decreases |s|
  {
    var a := LeadingSpace(s);
    assert s == s[..a] + s[a..];
    KeepAppend(s[..a], s[a..], NotSpace);
    KeepNothing(s[..a], NotSpace);
    if a < |s| {
      var t := s[a..];
      var n := WordLength(t);
      assert t[0] == s[a];
      assert t == t[..n] + t[n..];
      KeepAppend(t[..n], t[n..], NotSpace);
      KeepEverything(t[..n], NotSpace);
      WordsAreTheSolidText(t[n..]);
      var ws := Words(s);
      assert ws == [t[..n]] + Words(t[n..]);
      assert ws[1..] == Words(t[n..]);
    } else {
      assert s[a..] == [];
    }
  }

  /** There are no more words than non-whitespace characters. */
  lemma WordCountBound(s: string)
    ensures |Words(s)| <= |Keep(s, NotSpace)|
  {
    WordsAreTheSolidText(s);
    NonEmptyPartsBound(Words(s));
  }

  lemma {:induction false} NonEmptyPartsBound(parts: seq<string>)
    requires forall i | 0 <= i < |parts| :: parts[i] != []
    ensures |parts| <= |Concat(parts)|
  {
    if parts != [] {
      NonEmptyPartsBound(parts[1..]);
    }
  }

  lemma WordLengthOf(s: string, n: nat)
    requires n <= |s| && forall i | 0 <= i < n :: !IsSpace(s[i])
    requires n == |s| || IsSpace(s[n])
    ensures WordLength(s) == n
  {
  }

  /** A word followed by whitespace or the end is split off first. */
  lemma WordsOfWordThen(w: string, rest: string)
    requires IsWord(w) && (rest == [] || IsSpace(rest[0]))
    ensures Words(w + rest) == [w] + Words(rest)
  {
    var s := w + rest;
    assert s[0] == w[0];
    assert LeadingSpace(s) == 0;
    assert s[0..] == s;
    WordLengthOf(s, |w|);
    assert s[..|w|] == w && s[|w|..] == rest;
  }

  /** Whitespace in front of the text does not change its words. */
  lemma WordsAfterSpace(s: string)
    requires s != [] && IsSpace(s[0])
    ensures Words(s) == Words(s[1..])
  {
    var a := LeadingSpace(s);
    assert a == 1 + LeadingSpace(s[1..]);
    if a < |s| {
      var t := s[a..];
      assert t == s[1..][a - 1..];
      var n := WordLength(t);
      assert Words(s) == [t[..n]] + Words(t[n..]);
    } else {
      assert Words(s) == [];
    }
  }

  /** `" ".join(words).split() == words`. */
  lemma {:induction false} WordsOfJoin(ws: seq<string>)
    requires forall i | 0 <= i < |ws| :: IsWord(ws[i])
    ensures Words(Join(ws, " ")) == ws
  {
    if ws == [] {
      assert LeadingSpace("") == 0;
    } else if |ws| == 1 {
      WordsOfWordThen(ws[0], "");
      assert ws[0] + "" == ws[0];
      assert LeadingSpace("") == 0;
    } else {
      var tail := Join(ws[1..], " ");
      WordsOfJoin(ws[1..]);
      assert Join(ws, " ") == ws[0] + (" " + tail);
      WordsOfWordThen(ws[0], " " + tail);
      WordsAfterSpace(" " + tail);
      assert (" " + tail)[1..] == tail;
      assert [ws[0]] + ws[1..] == ws;
    }
  }

  // ---------------------------------------------------------------------
  // Sentences: `re.split(r'[.!?]+', content)`

  predicate IsTerminator(c: char) {
    c == '.' || c == '!' || c == '?'
  }

  predicate NotTerminator(c: char) {
    !IsTerminator(c)
  }

  /** Length of the leading run of sentence terminators. */
  function TerminatorRun(s: string): (n: nat)
    ensures n <= |s| && forall i | 0 <= i < n :: IsTerminator(s[i])
    ensures n == |s| || !IsTerminator(s[n])
  {
    if s != [] && IsTerminator(s[0]) then 1 + TerminatorRun(s[1..]) else 0
  }

  /** The pieces between maximal runs of terminators, always at least one. */
  function SentencePieces(s: string): (r: seq<string>)
    ensures |r| >= 1
    ensures forall i, j | 0 <= i < |r| && 0 <= j < |r[i]| :: !IsTerminator(r[i][j])
    decreases |s|
  {
    if s == [] then [""]
    else if IsTerminator(s[0]) then
      [""] + SentencePieces(s[TerminatorRun(s)..])
    else
      var rest := SentencePieces(s[1..]);
      [[s[0]] + rest[0]] + rest[1..]
  }

  /** Put together, the pieces are the text without its terminators. */
  lemma {:induction false} SentencePiecesCoverText(s: string)
    ensures Concat(SentencePieces(s)) == Keep(s, NotTerminator)
    ensures |SentencePieces(s)| <= |s| - |Keep(s, NotTerminator)| + 1
    decreases |s|
  {
    var r := SentencePieces(s);
    if s != [] {
      if IsTerminator(s[0]) {
        var n := TerminatorRun(s);
        assert s == s[..n] + s[n..];
        KeepAppend(s[..n], s[n..], NotTerminator);
        KeepNothing(s[..n], NotTerminator);
        SentencePiecesCoverText(s[n..]);
        assert r[1..] == SentencePieces(s[n..]);
      } else {
        var rest := SentencePieces(s[1..]);
        SentencePiecesCoverText(s[1..]);
        assert r[1..] == rest[1..];
        assert Concat(rest) == rest[0] + Concat(rest[1..]);
        assert Concat(r) == [s[0]] + rest[0] + Concat(rest[1..]);
      }
    }
  }

  // ---------------------------------------------------------------------
  // Paragraphs: `content.split('\n\n')`

  /** No blank line (two newlines in a row) inside `p`. */
  predicate NoBlankLine(p: string) {
    forall i | 0 <= i < |p| - 1 :: !(p[i] == '\n' && p[i + 1] == '\n')
  }

  /** The pieces between blank lines, scanning left to right, always at
      least one; the first piece is where the text starts. */
  function ParagraphPieces(s: string): (r: seq<string>)
    ensures |r| >= 1
    ensures forall i | 0 <= i < |r| :: NoBlankLine(r[i])
    ensures StartsWith(s, r[0])
    decreases |s|
  {
    if s == [] then [""]
    else if StartsWith(s, "\n\n") then [""] + ParagraphPieces(s[2..])
    else
      var rest := ParagraphPieces(s[1..]);
      var first := [s[0]] + rest[0];
      assert |rest[0]| >= 1 ==> rest[0][0] == s[1];
      assert forall i | 1 <= i < |first| - 1 :: first[i] == rest[0][i - 1] && first[i + 1] == rest[0][i];
      [first] + rest[1..]
  }

  /** Joining the pieces with a blank line gives the text back. */
  lemma {:induction false} JoinParagraphPieces(s: string)
    ensures Join(ParagraphPieces(s), "\n\n") == s
    decreases |s|
  {
    if s != [] {
      if StartsWith(s, "\n\n") {
        JoinParagraphPieces(s[2..]);
        JoinAfterBlankLine(s);
      } else {
        JoinParagraphPieces(s[1..]);
        JoinAfterCharacter(s);
      }
    }
  }

  /** The step of `JoinParagraphPieces` when the text opens with a blank
      line. */
  lemma JoinAfterBlankLine(s: string)
    requires s != [] && StartsWith(s, "\n\n")
    requires Join(ParagraphPieces(s[2..]), "\n\n") == s[2..]
    ensures Join(ParagraphPieces(s), "\n\n") == s
  {
    var rest := ParagraphPieces(s[2..]);
    assert ParagraphPieces(s) == [""] + rest;
    JoinEmptyFirst(rest, "\n\n");
    assert s == "\n\n" + s[2..];
  }

  /** The step of `JoinParagraphPieces` when the text opens with anything
      else. */
  lemma JoinAfterCharacter(s: string)
    requires s != [] && !StartsWith(s, "\n\n")
    requires Join(ParagraphPieces(s[1..]), "\n\n") == s[1..]
    ensures Join(ParagraphPieces(s), "\n\n") == s
  {
    var rest := ParagraphPieces(s[1..]);
    assert ParagraphPieces(s) == [[s[0]] + rest[0]] + rest[1..];
    JoinExtendsFirst(s[0], rest, "\n\n");
    assert s == [s[0]] + s[1..];
  }

  /** An empty first part leaves just the separator in front. */
  lemma JoinEmptyFirst(parts: seq<string>, sep: string)
    requires |parts| >= 1
    ensures Join([""] + parts, sep) == sep + Join(parts, sep)
  {
    assert ([""] + parts)[1..] == parts;
  }

  /** Putting a character in front of the first part puts it in front of
      the joined text. */
  lemma JoinExtendsFirst(c: char, parts: seq<string>, sep: string)
    requires |parts| >= 1
    ensures Join([[c] + parts[0]] + parts[1..], sep) == [c] + Join(parts, sep)
  {
    var r := [[c] + parts[0]] + parts[1..];
    assert r[1..] == parts[1..];
    if |parts| > 1 {
      assert Join(parts, sep) == parts[0] + sep + Join(parts[1..], sep);
      assert Join(r, sep) == [c] + parts[0] + sep + Join(parts[1..], sep);
    }
  }

  // ---------------------------------------------------------------------
  // The statistics

  predicate OtherThanSpace(c: char) {
    c != ' '
  }

  /** `s.replace(' ', '')` is shorter by the number of spaces. */
  lemma {:induction false} SpacesRemovedCount(s: string)
    ensures |Keep(s, OtherThanSpace)| == |s| - Count(s, ' ')
  {
    if s != [] {
      SpacesRemovedCount(s[1..]);
    }
  }

  /** A piece with something other than whitespace in it: `p.strip()` is
      truthy. */
  predicate NonBlank(p: string) {
    Strip(p) != []
  }

  /** How many elements of `xs` satisfy `f`: the length of
      `[x for x in xs if f(x)]`. */
  function CountWhere<T>(xs: seq<T>, f: T -> bool): (n: nat)
    ensures n == |set i | 0 <= i < |xs| && f(xs[i])|
    ensures n <= |xs|
  {
    if xs == [] then 0
    else
      var init := xs[..|xs| - 1];
      var last := if f(xs[|xs| - 1]) then 1 else 0;
      MatchingIndicesGrow(xs, f);
      CountWhere(init, f) + last
  }

  /** The positions of `xs` whose element satisfies `f` are those of all
      but its last element, and the last position when that element
      satisfies `f`. */
  lemma MatchingIndicesGrow<T>(xs: seq<T>, f: T -> bool)
    requires xs != []
    ensures var init := xs[..|xs| - 1];
      var before := set i | 0 <= i < |init| && f(init[i]);
      var all := set i | 0 <= i < |xs| && f(xs[i]);
      && |xs| - 1 !in before
      && all == if f(xs[|xs| - 1]) then before + {|xs| - 1} else before
  {
    var last := |xs| - 1;
    var init := xs[..last];
    var before := set i | 0 <= i < |init| && f(init[i]);
    var all := set i | 0 <= i < |xs| && f(xs[i]);
    assert forall i | 0 <= i < |init| :: init[i] == xs[i];
    assert forall i | i in all && i != last :: i in before;
    assert forall i | i in before :: i in all;
  }

  /** `max(1, words // 200)`: about 200 words a minute, never less than one
      minute. */
  function ReadingTime(words: nat): (m: nat)
    ensures m >= 1
    ensures words >= 200 ==> 200 * m <= words < 200 * (m + 1)
    ensures words < 400 ==> m == 1
  {
    if words / 200 > 1 then words / 200 else 1
  }

  datatype Statistics = Statistics(
    characters: nat,
    charactersNoSpaces: nat,
    words: nat,
    sentences: nat,
    paragraphs: nat,
    readingTimeMinutes: nat)

  /** `get_content_statistics`: no statistics for the empty text. Only the
      space character (not other whitespace) is left out of
      `charactersNoSpaces`. The average words per sentence, a float, is
      not part of this model. */
  function ContentStatistics(content: string): (r: Option<Statistics>)
    ensures r.None? <==> content == ""
    ensures r.Some? ==>
      && r.value.characters == |content|
      && r.value.charactersNoSpaces == |content| - Count(content, ' ')
      && r.value.words == |Words(content)| <= |Keep(content, NotSpace)|
      && r.value.sentences == CountWhere(SentencePieces(content), NonBlank)
      && r.value.sentences <= |content| - |Keep(content, NotTerminator)| + 1
      && r.value.paragraphs == CountWhere(ParagraphPieces(content), NonBlank)
      && r.value.paragraphs <= |ParagraphPieces(content)|
      && r.value.readingTimeMinutes == ReadingTime(r.value.words) >= 1
  {
    if content == "" then None
    else
      var words := |Words(content)|;
      var sentences := CountWhere(SentencePieces(content), NonBlank);
      SpacesRemovedCount(content);
      WordCountBound(content);
      SentencePiecesCoverText(content);
      Some(Statistics(
        |content|,
        |Keep(content, OtherThanSpace)|,
        words,
        sentences,
        CountWhere(ParagraphPieces(content), NonBlank),
        ReadingTime(words)))
  }

  /** Every character counts once among the words or the whitespace. */
  lemma WordsAndSpaceFillText(s: string)
    ensures |Concat(Words(s))| + |Keep(s, IsSpace)| == |s|
  {
    WordsAreTheSolidText(s);
    KeepSplitsText(s);
  }

  lemma {:induction false} KeepSplitsText(s: string)
    ensures |Keep(s, NotSpace)| + |Keep(s, IsSpace)| == |s|
  {
    if s != [] {
      KeepSplitsText(s[1..]);
    }
  }
}
