/** Python `str` operations that the résumé pipeline relies on, stated over
    Dafny strings (sequences of Unicode scalar values, which is what
    Python's `len` and indexing count). */
module PyText {

  datatype Option<T> = None | Some(value: T)

  /** `str.isspace()` for one character, which is also what `\s` in a `re`
      pattern and the argument-less `str.strip()`/`str.split()` treat as
      whitespace. */
  predicate IsSpace(c: char) {
    || c == ' '
    || '\t' <= c <= '\r'
    || '\U{1C}' <= c <= '\U{1F}'
    || c == '\U{85}' || c == '\U{A0}' || c == '\U{1680}'
    || '\U{2000}' <= c <= '\U{200A}'
    || c == '\U{2028}' || c == '\U{2029}' || c == '\U{202F}'
    || c == '\U{205F}' || c == '\U{3000}'
  }

  predicate AllSpace(s: string) {
    forall i | 0 <= i < |s| :: IsSpace(s[i])
  }

  /** A string that `strip()` leaves alone. */
  predicate IsStripped(s: string) {
    s == [] || (!IsSpace(s[0]) && !IsSpace(s[|s| - 1]))
  }

  /** Number of leading whitespace characters. */
  function LeadingSpace(s: string): (n: nat)
    ensures n <= |s| && AllSpace(s[..n])
    ensures n == |s| || !IsSpace(s[n])
  {
    if s != [] && IsSpace(s[0]) then
      var m := LeadingSpace(s[1..]);
      assert s[1..][..m] == s[1..m + 1];
      1 + m
    else 0
  }

  /** Number of trailing whitespace characters. */
  function TrailingSpace(s: string): (n: nat)
    ensures n <= |s| && AllSpace(s[|s| - n..])
    ensures n == |s| || !IsSpace(s[|s| - 1 - n])
  {
    if s != [] && IsSpace(s[|s| - 1]) then
      var m := TrailingSpace(s[..|s| - 1]);
      assert s[..|s| - 1][|s| - 1 - m..] == s[|s| - 1 - m..|s| - 1];
      1 + m
    else 0
  }

  /** `s.strip()`: the one stripped slice of `s` that only whitespace
      surrounds. */
  function Strip(s: string): (r: string)
    ensures IsStripped(r)
    ensures LeadingSpace(s) + |r| <= |s|
    ensures r == s[LeadingSpace(s)..LeadingSpace(s) + |r|]
    ensures AllSpace(s[..LeadingSpace(s)]) && AllSpace(s[LeadingSpace(s) + |r|..])
  {
    var a := LeadingSpace(s);
    var t := s[a..];
    var b := TrailingSpace(t);
    var r := t[..|t| - b];
    assert r == s[a..a + |r|];
    assert s[a + |r|..] == t[|t| - b..];
    assert r != [] ==> r[0] == s[a] && r[|r| - 1] == t[|t| - 1 - b];
    r
  }

  lemma StrippedIsFixedPoint(s: string)
    requires IsStripped(s)
    ensures Strip(s) == s
  {
    if s != [] {
      assert LeadingSpace(s) == 0;
      assert |Strip(s)| == |s|;
    }
  }

  /** A character that is not whitespace lies inside the stripped part. */
  lemma NonSpaceSurvivesStrip(s: string, i: nat)
    requires i < |s| && !IsSpace(s[i])
    ensures LeadingSpace(s) <= i < LeadingSpace(s) + |Strip(s)|
  {
  }

  /** A leading run without whitespace survives the strip. */
  lemma StripKeepsSolidPrefix(s: string, n: nat)
    requires n <= |s| && forall i | 0 <= i < n :: !IsSpace(s[i])
    ensures StartsWith(Strip(s), s[..n])
  {
    if n > 0 {
      NonSpaceSurvivesStrip(s, 0);
      NonSpaceSurvivesStrip(s, n - 1);
      assert Strip(s)[..n] == s[..n];
    }
  }

  /** Text that starts and ends solid at `n` and has only whitespace after
      strips to its first `n` characters. */
  lemma StripOfSolidThenSpace(s: string, n: nat)
    requires 0 < n <= |s| && !IsSpace(s[0]) && !IsSpace(s[n - 1]) && AllSpace(s[n..])
    ensures Strip(s) == s[..n]
  {
    NonSpaceSurvivesStrip(s, 0);
    NonSpaceSurvivesStrip(s, n - 1);
  }

  /** `strip()` gives "" exactly on whitespace-only strings. */
  lemma StripEmptyIffAllSpace(s: string)
    ensures Strip(s) == [] <==> AllSpace(s)
  {
    var a := LeadingSpace(s);
    assert s[..|s|] == s;
    if !AllSpace(s) {
      assert a < |s|;
      assert s[a..][0] == s[a];
    }
  }

  /** `t` occurs in `s` as a contiguous piece (Python's `t in s`). */
  predicate IsSubstring(t: string, s: string) {
    exists k | 0 <= k <= |s| - |t| :: OccursAt(t, s, k)
  }

  predicate OccursAt(t: string, s: string, k: nat)
    requires k + |t| <= |s|
  {
    s[k..k + |t|] == t
  }

  lemma SubstringOfWhole(t: string)
    ensures IsSubstring(t, t)
  {
    assert OccursAt(t, t, 0);
  }

  lemma SubstringInContext(t: string, m: string, a: string, b: string)
    requires IsSubstring(t, m)
    ensures IsSubstring(t, a + m + b)
  {
    var k :| 0 <= k <= |m| - |t| && OccursAt(t, m, k);
    var s := a + m + b;
    assert s[|a| + k..|a| + k + |t|] == m[k..k + |t|];
    assert OccursAt(t, s, |a| + k);
  }

  lemma SubstringTransitive(t: string, m: string, s: string)
    requires IsSubstring(t, m) && IsSubstring(m, s)
    ensures IsSubstring(t, s)
  {
    var k :| 0 <= k <= |m| - |t| && OccursAt(t, m, k);
    var j :| 0 <= j <= |s| - |m| && OccursAt(m, s, j);
    forall x | 0 <= x < |t| ensures s[j + k + x] == t[x] {
      assert t[x] == m[k..k + |t|][x] == m[k + x];
      assert m[k + x] == s[j..j + |m|][k + x];
    }
    assert s[j + k..j + k + |t|] == t;
    assert OccursAt(t, s, j + k);
  }

  lemma StripIsSubstring(s: string)
    ensures IsSubstring(Strip(s), s)
  {
    var a := LeadingSpace(s);
    assert OccursAt(Strip(s), s, a);
  }

  /** Every character of a substring is a character of the whole. */
  lemma SubstringChars(t: string, s: string, i: int)
    requires IsSubstring(t, s) && 0 <= i < |t|
    ensures t[i] in s
  {
    var k :| 0 <= k <= |s| - |t| && OccursAt(t, s, k);
    assert t[i] == s[k..k + |t|][i];
  }

  function StartsWith(s: string, prefix: string): bool {
    |prefix| <= |s| && s[..|prefix|] == prefix
  }

  function EndsWith(s: string, suffix: string): bool {
    |suffix| <= |s| && s[|s| - |suffix|..] == suffix
  }

  /** `''.join(parts)`. */
  function Concat(parts: seq<string>): string {
    if parts == [] then "" else parts[0] + Concat(parts[1..])
  }

  /** Each part of `''.join(parts)` occurs in it. */
  lemma {:induction false} PartOfConcat(parts: seq<string>, i: nat)
    requires i < |parts|
    ensures IsSubstring(parts[i], Concat(parts))
  {
    if i == 0 {
      SubstringOfWhole(parts[0]);
      SubstringInContext(parts[0], parts[0], "", Concat(parts[1..]));
      assert "" + parts[0] + Concat(parts[1..]) == Concat(parts);
    } else {
      PartOfConcat(parts[1..], i - 1);
      SubstringInContext(parts[i], Concat(parts[1..]), parts[0], "");
      assert parts[0] + Concat(parts[1..]) + "" == Concat(parts);
    }
  }

  lemma {:induction false} ConcatAppend(x: seq<string>, y: seq<string>)
    ensures Concat(x + y) == Concat(x) + Concat(y)
  {
    if x == [] {
      assert x + y == y;
    } else {
      ConcatAppend(x[1..], y);
      assert (x + y)[0] == x[0] && (x + y)[1..] == x[1..] + y;
    }
  }

  /** What occurs in one part occurs in their concatenation. */
  lemma SubstringOfPart(t: string, parts: seq<string>, i: nat)
    requires i < |parts| && IsSubstring(t, parts[i])
    ensures IsSubstring(t, Concat(parts))
  {
    PartOfConcat(parts, i);
    SubstringTransitive(t, parts[i], Concat(parts));
  }

  /** Two neighbouring parts occur together in the concatenation. */
  lemma {:induction false} AdjacentParts(parts: seq<string>, i: nat)
    requires i + 1 < |parts|
    ensures IsSubstring(parts[i] + parts[i + 1], Concat(parts))
  {
    var t := parts[i] + parts[i + 1];
    if i == 0 {
      assert Concat(parts) == parts[0] + (parts[1] + Concat(parts[2..]));
      SubstringOfWhole(t);
      SubstringInContext(t, t, "", Concat(parts[2..]));
      assert "" + t + Concat(parts[2..]) == Concat(parts);
    } else {
      AdjacentParts(parts[1..], i - 1);
      SubstringInContext(t, Concat(parts[1..]), parts[0], "");
      assert parts[0] + Concat(parts[1..]) + "" == Concat(parts);
    }
  }

  /** `sep.join(parts)`. */
  function Join(parts: seq<string>, sep: string): string {
    if parts == [] then ""
    else if |parts| == 1 then parts[0]
    else parts[0] + sep + Join(parts[1..], sep)
  }

  /** Each part of `sep.join(parts)` occurs in it. */
  lemma {:induction false} PartOfJoin(parts: seq<string>, sep: string, i: nat)
    requires i < |parts|
    ensures IsSubstring(parts[i], Join(parts, sep))
  {
    if |parts| == 1 {
      SubstringOfWhole(parts[0]);
    } else if i == 0 {
      SubstringOfWhole(parts[0]);
      SubstringInContext(parts[0], parts[0], "", sep + Join(parts[1..], sep));
      assert "" + parts[0] + (sep + Join(parts[1..], sep)) == Join(parts, sep);
    } else {
      PartOfJoin(parts[1..], sep, i - 1);
      SubstringInContext(parts[i], Join(parts[1..], sep), parts[0] + sep, "");
      assert parts[0] + sep + Join(parts[1..], sep) + "" == Join(parts, sep);
    }
  }

  /** `s.split(sep)` for a one-character separator: the pieces between
      separators, always at least one (`"".split("\n") == [""]`). */
  function Split(s: string, sep: char): (r: seq<string>)
    ensures |r| >= 1
    ensures forall i | 0 <= i < |r| :: sep !in r[i]
    decreases |s|
  {
    if s == [] then [""]
    else
      var rest := Split(s[1..], sep);
      if s[0] == sep then [""] + rest
      else [[s[0]] + rest[0]] + rest[1..]
  }

  /** Joining the pieces of a split with the separator gives the string back. */
  lemma {:induction false} JoinSplit(s: string, sep: char)
    ensures Join(Split(s, sep), [sep]) == s
    decreases |s|
  {
    if s != [] {
      var rest := Split(s[1..], sep);
      JoinSplit(s[1..], sep);
      if s[0] == sep {
        assert Split(s, sep) == [""] + rest;
        assert ([""] + rest)[1..] == rest;
      } else {
        assert Split(s, sep) == [[s[0]] + rest[0]] + rest[1..];
        if |rest| > 1 {
          assert ([[s[0]] + rest[0]] + rest[1..])[1..] == rest[1..];
        }
      }
    }
  }

  lemma {:induction false} SplitWithoutSeparator(s: string, sep: char)
    requires sep !in s
    ensures Split(s, sep) == [s]
    decreases |s|
  {
    if s != [] {
      SplitWithoutSeparator(s[1..], sep);
      assert [s[0]] + s[1..] == s;
    }
  }

  lemma {:induction false} SplitAtFirstSeparator(a: string, b: string, sep: char)
    requires sep !in a
    ensures Split(a + [sep] + b, sep) == [a] + Split(b, sep)
    decreases |a|
  {
    var s := a + [sep] + b;
    if a == [] {
      assert s[1..] == b;
    } else {
      assert s[1..] == a[1..] + [sep] + b;
      SplitAtFirstSeparator(a[1..], b, sep);
      assert [a[0]] + a[1..] == a;
    }
  }

  /** Splitting the join of separator-free pieces gives the pieces back. */
  lemma {:induction false} SplitJoin(parts: seq<string>, sep: char)
    requires |parts| >= 1
    requires forall i | 0 <= i < |parts| :: sep !in parts[i]
    ensures Split(Join(parts, [sep]), sep) == parts
  {
    if |parts| == 1 {
      SplitWithoutSeparator(parts[0], sep);
    } else {
      SplitJoin(parts[1..], sep);
      SplitAtFirstSeparator(parts[0], Join(parts[1..], [sep]), sep);
      assert [parts[0]] + parts[1..] == parts;
    }
  }

  /** The characters of `s` for which `keep` holds, in order: what
      `re.sub` of a character class with `''` leaves. */
  function Keep(s: string, keep: char -> bool): (r: string)
    ensures |r| <= |s|
    ensures forall i | 0 <= i < |r| :: keep(r[i])
  {
    if s == [] then ""
    else
      var rest := Keep(s[1..], keep);
      assert s == [s[0]] + s[1..];
      if keep(s[0]) then [s[0]] + rest else rest
  }

  /** Every kept character occurs as often as in the input, and nothing
      else appears. */
  lemma {:induction false} KeepCounts(s: string, keep: char -> bool)
    ensures forall c :: keep(c) ==> multiset(Keep(s, keep))[c] == multiset(s)[c]
    ensures forall c :: c in Keep(s, keep) ==> c in s
  {
    if s != [] {
      KeepCounts(s[1..], keep);
      assert s == [s[0]] + s[1..];
    }
  }

  /** Keeping every character changes nothing. */
  lemma {:induction false} KeepEverything(s: string, keep: char -> bool)
    requires forall i | 0 <= i < |s| :: keep(s[i])
    ensures Keep(s, keep) == s
  {
    if s != [] {
      KeepEverything(s[1..], keep);
    }
  }

  /** Filtering a concatenation filters each half. */
  lemma {:induction false} KeepAppend(x: string, y: string, keep: char -> bool)
    ensures Keep(x + y, keep) == Keep(x, keep) + Keep(y, keep)
  {
    if x == [] {
      assert x + y == y;
    } else {
      KeepAppend(x[1..], y, keep);
      assert (x + y)[0] == x[0] && (x + y)[1..] == x[1..] + y;

    }
  }

  /** Keeping no character leaves the empty string. */
  lemma {:induction false} KeepNothing(s: string, keep: char -> bool)
    requires forall i | 0 <= i < |s| :: !keep(s[i])
    ensures Keep(s, keep) == ""
  {
    if s != [] {
      KeepNothing(s[1..], keep);
    }
  }

  /** Number of occurrences of `c` in `s` (`s.count(c)`). */
  function Count(s: string, c: char): nat {
    if s == [] then 0 else (if s[0] == c then 1 else 0) + Count(s[1..], c)
  }

  function Digit(d: nat): (c: char)
    requires d < 10
    ensures '0' <= c <= '9'
  {
    ['0', '1', '2', '3', '4', '5', '6', '7', '8', '9'][d]
  }

  predicate AllDigits(s: string) {
    forall i | 0 <= i < |s| :: '0' <= s[i] <= '9'
  }

  /** Decimal value of a digit string. */
  function DigitsValue(s: string): nat
    requires AllDigits(s)
  {
    if s == [] then 0
    else 10 * DigitsValue(s[..|s| - 1]) + (s[|s| - 1] as int - '0' as int)
  }

  /** `str(n)` for a non-negative integer: digits without a leading zero. */
  function NatToString(n: nat): (r: string)
    ensures |r| >= 1 && AllDigits(r)
    ensures r[0] == '0' ==> n == 0
  {
    if n < 10 then [Digit(n)] else NatToString(n / 10) + [Digit(n % 10)]
  }

  /** Reading back the digits of `str(n)` gives `n`. */
  lemma {:induction false} NatToStringRoundTrip(n: nat)
    ensures DigitsValue(NatToString(n)) == n
  {
    if n >= 10 {
      NatToStringRoundTrip(n / 10);
      var r := NatToString(n);
      assert r[..|r| - 1] == NatToString(n / 10);
    } else {
      assert NatToString(n)[..0] == "";
    }
  }

  /** `str(i)` for any integer. */
  function IntToString(i: int): (r: string)
    ensures |r| >= 1
    ensures i < 0 <==> r[0] == '-'
  {
    if i < 0 then "-" + NatToString(-i) else NatToString(i)
  }

  /** `c * n` for a one-character string. */
  function Repeat(c: char, n: nat): (r: string)
    ensures |r| == n && forall i | 0 <= i < n :: r[i] == c
  {
    seq(n, _ => c)
  }

  /** `s[:n]`. */
  function Take<T>(s: seq<T>, n: nat): (r: seq<T>)
    ensures |r| == if n < |s| then n else |s|
    ensures r == s[..|r|]
  {
    if n < |s| then s[..n] else s
  }
}
