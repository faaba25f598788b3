/** The normaliser that cleans text extracted from an uploaded résumé
    (`clean_extracted_text`): four passes in a fixed order, then a loop
    that keeps only the lines worth keeping. */
module TextCleaner {
  import opened PyText

  /** The character class `[\x00-\x08\x0b\x0c\x0e-\x1f\x7f-\x84\x86-\x9f]`
      that the first pass deletes. `\t`, `\n`, `\r` and `\x85` are not in it. */
  predicate IsRemovedControl(c: char) {
    || c <= '\U{8}' || c == '\U{B}' || c == '\U{C}'
    || '\U{E}' <= c <= '\U{1F}'
    || '\U{7F}' <= c <= '\U{84}'
    || '\U{86}' <= c <= '\U{9F}'
  }

  predicate NoControl(s: string) {
    forall i | 0 <= i < |s| :: !IsRemovedControl(s[i])
  }

  /** Pass 1: delete every character of the control class and nothing else. */
  function RemoveControlChars(s: string): (r: string)
    ensures NoControl(r)
    ensures forall c :: !IsRemovedControl(c) ==> multiset(r)[c] == multiset(s)[c]
    ensures multiset(r)['\n'] == multiset(s)['\n'] && multiset(r)['\t'] == multiset(s)['\t']
    ensures multiset(r)['\U{85}'] == multiset(s)['\U{85}']
  {
    var keep := c => !IsRemovedControl(c);
    KeepCounts(s, keep);
    Keep(s, keep)
  }

  /** For `u` made of whitespace: the length of its shortest prefix that
      holds every `'\n'` of `u` (0 when `u` has none). */
  function LastNewlineEnd(u: string): (e: nat)
    ensures e <= |u|
    ensures e > 0 ==> u[e - 1] == '\n'
    ensures '\n' !in u[e..]
  {
    if u == [] then 0
    else if u[|u| - 1] == '\n' then |u|
    else
      var e := LastNewlineEnd(u[..|u| - 1]);
      assert u[e..] == u[..|u| - 1][e..] + [u[|u| - 1]];
      e
  }

  /** Where the pattern `\s*\n` matches at the start of `t`, greedily: the
      end of the last `'\n'` in the whitespace run that opens `t`; 0 when
      that run holds no `'\n'` (no match). */
  function MatchEnd(t: string): (e: nat)
    ensures e <= LeadingSpace(t)
    ensures e > 0 ==> t[e - 1] == '\n'
  {
    var n := LeadingSpace(t);
    var e := LastNewlineEnd(t[..n]);
    assert e > 0 ==> t[e - 1] == t[..n][e - 1];
    e
  }

  /** Pass 2: `re.sub(r'\n\s*\n', '\n\n', s)`, scanning left to right and
      replacing each leftmost, greedy match. */
  function CollapseBlankLines(s: string): (r: string)
    decreases |s|
  {
    if s == [] then ""
    else if s[0] == '\n' && MatchEnd(s[1..]) > 0 then
      "\n\n" + CollapseBlankLines(s[1 + MatchEnd(s[1..])..])
    else [s[0]] + CollapseBlankLines(s[1..])
  }

  /** Pass 2 brings in no character that was not already there. */
  lemma {:induction false} CollapseBlankLinesChars(s: string)
    ensures forall c :: c in CollapseBlankLines(s) ==> c in s
    decreases |s|
  {
    if s != [] {
      if s[0] == '\n' && MatchEnd(s[1..]) > 0 {
        var e := MatchEnd(s[1..]);
        CollapseBlankLinesChars(s[1 + e..]);
        assert forall c :: c in s[1 + e..] ==> c in s;
      } else {
        CollapseBlankLinesChars(s[1..]);
        assert forall c :: c in s[1..] ==> c in s;
      }
    }
  }

  /** Every `'\n'` of `s` is followed by a non-whitespace character: the
      shape of text whose lines are all stripped and non-empty. */
  predicate NewlinesBeforeText(s: string) {
    forall i | 0 <= i < |s| && s[i] == '\n' :: i + 1 < |s| && !IsSpace(s[i + 1])
  }

  /** Where no `'\n'` is followed by whitespace the pattern never matches,
      so pass 2 changes nothing. */
  lemma {:induction false} CollapseBlankLinesFixedPoint(s: string)
    requires NewlinesBeforeText(s)
    ensures CollapseBlankLines(s) == s
    decreases |s|
  {
    if s != [] {
      if s[0] == '\n' {
        assert LeadingSpace(s[1..]) == 0 by {
          assert s[1..][0] == s[1];
        }
      }
      assert NewlinesBeforeText(s[1..]) by {
        forall i | 0 <= i < |s[1..]| && s[1..][i] == '\n'
          ensures i + 1 < |s[1..]| && !IsSpace(s[1..][i + 1])
        {
          assert s[i + 1] == '\n';
        }
      }
      CollapseBlankLinesFixedPoint(s[1..]);
      assert s == [s[0]] + s[1..];
    }
  }

  predicate NoDoubleSpace(s: string) {
    forall i | 0 <= i < |s| - 1 :: !(s[i] == ' ' && s[i + 1] == ' ')
  }

  /** Pass 3: `re.sub(r' +', ' ', s)`: every run of spaces becomes one
      space; every other character keeps its number of occurrences. */
  function CollapseSpaces(s: string): (r: string)
    ensures NoDoubleSpace(r)
    ensures forall c :: c in r ==> c in s
    ensures |s| > 0 ==> |r| > 0 && r[0] == s[0]
    ensures forall c | c != ' ' :: multiset(r)[c] == multiset(s)[c]
  {
    if |s| <= 1 then s
    else
      var rest := CollapseSpaces(s[1..]);
      assert s == [s[0]] + s[1..];
      if s[0] == ' ' && s[1] == ' ' then rest else [s[0]] + rest
  }

  lemma {:induction false} CollapseSpacesFixedPoint(s: string)
    requires NoDoubleSpace(s)
    ensures CollapseSpaces(s) == s
    decreases |s|
  {
    if |s| > 1 {
      CollapseSpacesFixedPoint(s[1..]);
      assert s == [s[0]] + s[1..];
    }
  }

  /** A line the final pass keeps: stripped and longer than 2 characters. */
  predicate IsKeptLine(line: string) {
    IsStripped(line) && |line| > 2
  }

  /** Pass 4 as a function of the split lines: each line stripped, and kept
      only when it is longer than 2 characters, in order. */
  function KeptLines(lines: seq<string>): (r: seq<string>)
    ensures |r| <= |lines|
    ensures forall i | 0 <= i < |r| :: IsKeptLine(r[i])
  {
    if lines == [] then []
    else
      var init := KeptLines(lines[..|lines| - 1]);
      var line := Strip(lines[|lines| - 1]);
      if |line| > 2 then init + [line] else init
  }

  /** Lines that are already kept lines pass through pass 4 unchanged. */
  lemma {:induction false} KeptLinesFixedPoint(lines: seq<string>)
    requires forall i | 0 <= i < |lines| :: IsKeptLine(lines[i])
    ensures KeptLines(lines) == lines
  {
    if lines != [] {
      KeptLinesFixedPoint(lines[..|lines| - 1]);
      StrippedIsFixedPoint(lines[|lines| - 1]);
    }
  }

  /** The normalised text, as a function of the raw text. */
  function CleanedText(text: string): string {
    if text == "" then ""
    else Join(KeptLines(Split(Collapsed(text), '\n')), "\n")
  }

  /** The text after passes 1 to 3. */
  function Collapsed(text: string): string {
    CollapseSpaces(CollapseBlankLines(RemoveControlChars(text)))
  }

  /** `clean_extracted_text`: the three regular-expression passes in order, then the loop
      that strips each line and keeps those longer than 2 characters. */
  method CleanExtractedText(text: string) returns (r: string)
    ensures r == CleanedText(text)
    ensures text == "" ==> r == ""
    ensures NoControl(r)
    ensures r != "" ==> forall i | 0 <= i < |Split(r, '\n')| :: IsKeptLine(Split(r, '\n')[i])
  {
    if text == "" {
      return "";
    }
    var t := RemoveControlChars(text);
    t := CollapseBlankLines(t);
    t := CollapseSpaces(t);
    var cleaned := KeepLongLines(Split(t, '\n'));
    r := Join(cleaned, "\n");
    CleanedTextShape(text);
  }

  /** The loop of pass 4: each line stripped, appended when it is longer
      than 2 characters. */
  method KeepLongLines(lines: seq<string>) returns (cleaned: seq<string>)
    ensures cleaned == KeptLines(lines)
  {
    cleaned := [];
    for i := 0 to |lines|
      invariant cleaned == KeptLines(lines[..i])
    {
      var line := Strip(lines[i]);
      assert lines[..i + 1][..i] == lines[..i];
      if |line| > 2 {
        cleaned := cleaned + [line];
      }
    }
    assert lines[..|lines|] == lines;
  }

  // ---------------------------------------------------------------------
  // Properties of the normalised text

  /** A property of strings that every substring inherits. */
  lemma SubstringKeepsNoControl(t: string, s: string)
    requires IsSubstring(t, s) && NoControl(s)
    ensures NoControl(t)
  {
    forall i | 0 <= i < |t| ensures !IsRemovedControl(t[i]) {
      SubstringChars(t, s, i);
    }
  }

  lemma SubstringKeepsNoDoubleSpace(t: string, s: string)
    requires IsSubstring(t, s) && NoDoubleSpace(s)
    ensures NoDoubleSpace(t)
  {
    var k :| 0 <= k <= |s| - |t| && OccursAt(t, s, k);
    forall i | 0 <= i < |t| - 1 ensures !(t[i] == ' ' && t[i + 1] == ' ') {
      assert t[i] == s[k + i] && t[i + 1] == s[k + i + 1];
    }
  }

  lemma SubstringKeepsNoNewline(t: string, s: string)
    requires IsSubstring(t, s) && '\n' !in s
    ensures '\n' !in t
  {
    if '\n' in t {
      var i :| 0 <= i < |t| && t[i] == '\n';
      SubstringChars(t, s, i);
    }
  }

  /** Every piece of a split occurs in the split string. */
  lemma {:induction false} SplitPiecesOccur(s: string, sep: char)
    ensures forall i | 0 <= i < |Split(s, sep)| :: IsSubstring(Split(s, sep)[i], s)
    ensures StartsWith(s, Split(s, sep)[0])
    decreases |s|
  {
    var r := Split(s, sep);
    if s == [] {
      SubstringOfWhole("");
    } else {
      var rest := Split(s[1..], sep);
      SplitPiecesOccur(s[1..], sep);
      forall i | 0 <= i < |rest| ensures IsSubstring(rest[i], s) {
        SubstringInContext(rest[i], s[1..], [s[0]], "");
        assert [s[0]] + s[1..] + "" == s;
      }
      if s[0] == sep {
        assert OccursAt("", s, 0);
        assert r == [""] + rest;
        forall i | 0 <= i < |r| ensures IsSubstring(r[i], s) {
          if i > 0 { assert r[i] == rest[i - 1]; }
        }
      } else {
        var first := [s[0]] + rest[0];
        assert s[..|first|] == first by {
          assert s[1..][..|rest[0]|] == rest[0];
        }
        assert OccursAt(first, s, 0);
        assert r == [first] + rest[1..];
        forall i | 0 <= i < |r| ensures IsSubstring(r[i], s) {
          if i > 0 { assert r[i] == rest[i]; }
        }
      }
    }
  }

  /** Each kept line is a stripped piece of the split, hence a substring. */
  lemma {:induction false} KeptLinesOccur(lines: seq<string>, s: string)
    requires forall i | 0 <= i < |lines| :: IsSubstring(lines[i], s)
    ensures forall i | 0 <= i < |KeptLines(lines)| :: IsSubstring(KeptLines(lines)[i], s)
  {
    if lines != [] {
      var init := lines[..|lines| - 1];
      KeptLinesOccur(init, s);
      var last := lines[|lines| - 1];
      StripIsSubstring(last);
      SubstringTransitive(Strip(last), last, s);
    }
  }

  /** The same for "has no '\n'". */
  lemma {:induction false} KeptLinesHaveNoNewline(lines: seq<string>)
    requires forall i | 0 <= i < |lines| :: '\n' !in lines[i]
    ensures forall i | 0 <= i < |KeptLines(lines)| :: '\n' !in KeptLines(lines)[i]
  {
    if lines != [] {
      KeptLinesHaveNoNewline(lines[..|lines| - 1]);
      var last := lines[|lines| - 1];
      StripIsSubstring(last);
      SubstringKeepsNoNewline(Strip(last), last);
    }
  }

  /** Joining lines with `"\n"` keeps a property that holds of every line
      and of `'\n'`, once the property is about single characters. */
  lemma {:induction false} JoinKeepsNoControl(parts: seq<string>)
    requires forall i | 0 <= i < |parts| :: NoControl(parts[i])
    ensures NoControl(Join(parts, "\n"))
  {
    if |parts| > 1 {
      JoinKeepsNoControl(parts[1..]);
    }
  }

  lemma {:induction false} JoinKeepsNoDoubleSpace(parts: seq<string>)
    requires forall i | 0 <= i < |parts| :: NoDoubleSpace(parts[i])
    ensures NoDoubleSpace(Join(parts, "\n"))
  {
    if |parts| > 1 {
      JoinKeepsNoDoubleSpace(parts[1..]);
      var a, b := parts[0] + "\n", Join(parts[1..], "\n");
      assert NoDoubleSpace(a);
      assert Join(parts, "\n") == a + b;
      forall i | 0 <= i < |a + b| - 1 ensures !((a + b)[i] == ' ' && (a + b)[i + 1] == ' ') {
        if i + 1 < |a| {
        } else if i + 1 == |a| {
          assert (a + b)[i + 1] == b[0];
          assert (a + b)[i] == '\n';
        } else {
          assert (a + b)[i] == b[i - |a|];
        }
      }
    }
  }

  lemma {:induction false} JoinKeepsNewlinesBeforeText(parts: seq<string>)
    requires forall i | 0 <= i < |parts| :: IsKeptLine(parts[i]) && '\n' !in parts[i]
    ensures NewlinesBeforeText(Join(parts, "\n"))
    ensures |parts| > 0 ==> |parts[0]| > 0 && |Join(parts, "\n")| > 0 && Join(parts, "\n")[0] == parts[0][0]
  {
    if |parts| > 1 {
      JoinKeepsNewlinesBeforeText(parts[1..]);
      var a, b := parts[0], Join(parts[1..], "\n");
      var s := a + "\n" + b;
      assert Join(parts, "\n") == s;
      forall i | 0 <= i < |s| && s[i] == '\n' ensures i + 1 < |s| && !IsSpace(s[i + 1]) {
        if i == |a| {
          assert s[i + 1] == b[0] == parts[1][0];
        } else if i > |a| {
          assert s[i] == b[i - |a| - 1];
        }
      }
    }
  }

  /** What the normaliser guarantees of its output: no character of the
      control class, no doubled space, each `'\n'` followed by text, and
      the lines are exactly `kept`, each stripped and longer than 2. */
  lemma CleanedTextShape(text: string)
    ensures NoControl(CleanedText(text)) && NoDoubleSpace(CleanedText(text))
    ensures NewlinesBeforeText(CleanedText(text))
    ensures CleanedText(text) != "" ==>
      forall i | 0 <= i < |Split(CleanedText(text), '\n')| :: IsKeptLine(Split(CleanedText(text), '\n')[i])
  {
    if text != "" {
      var t := Collapsed(text);
      CollapsedHasNoControl(text);
      var kept := KeptLines(Split(t, '\n'));
      KeptLinesInherit(t);
      JoinKeepsNoControl(kept);
      JoinKeepsNoDoubleSpace(kept);
      JoinKeepsNewlinesBeforeText(kept);
      if kept != [] {
        SplitJoin(kept, '\n');
      }
    }
  }

  lemma CollapsedHasNoControl(text: string)
    ensures NoControl(Collapsed(text))
  {
    var t0 := RemoveControlChars(text);
    var t1 := CollapseBlankLines(t0);
    CollapseBlankLinesChars(t0);
    var t := CollapseSpaces(t1);
    forall i | 0 <= i < |t| ensures !IsRemovedControl(t[i]) {
      assert t[i] in t1;
      assert t[i] in t0;
      var j :| 0 <= j < |t0| && t0[j] == t[i];
    }
  }

  /** The kept lines of a text inherit its single-line properties. */
  lemma KeptLinesInherit(t: string)
    requires NoControl(t) && NoDoubleSpace(t)
    ensures forall i | 0 <= i < |KeptLines(Split(t, '\n'))| ::
      var line := KeptLines(Split(t, '\n'))[i];
      NoControl(line) && NoDoubleSpace(line) && '\n' !in line
  {
    var lines := Split(t, '\n');
    SplitPiecesOccur(t, '\n');
    var kept := KeptLines(lines);
    KeptLinesOccur(lines, t);
    KeptLinesHaveNoNewline(lines);
    forall i | 0 <= i < |kept| ensures NoControl(kept[i]) && NoDoubleSpace(kept[i]) {
      SubstringKeepsNoControl(kept[i], t);
      SubstringKeepsNoDoubleSpace(kept[i], t);
    }
  }

  /** Normalising normalised text changes nothing. */
  lemma CleanedTextIdempotent(text: string)
    ensures CleanedText(CleanedText(text)) == CleanedText(text)
  {
    var r := CleanedText(text);
    if r != "" {
      CleanedTextShape(text);
      KeepEverything(r, c => !IsRemovedControl(c));
      assert RemoveControlChars(r) == r;
      CollapseBlankLinesFixedPoint(r);
      CollapseSpacesFixedPoint(r);
      KeptLinesFixedPoint(Split(r, '\n'));
      JoinSplit(r, '\n');
    }
  }
}
