/** String operations of JavaScript that the analyzers rely on, on
    `string` = `seq<char>`: prefix and substring tests, ASCII lower-casing,
    `trim`, `split` on a character class, `split(/\s+/)`, and decimal
    rendering of numbers. */
module Text {

  /** The characters JavaScript's `trim` removes and `\s` matches: white
      space (including the Unicode space separators) and line terminators. */
  predicate IsSpace(c: char) {
    || c == ' ' || c == '\t' || c == '\n' || c == '\r'
    || c == '\U{000B}' || c == '\U{000C}' || c == '\U{00A0}' || c == '\U{1680}'
    || ('\U{2000}' <= c <= '\U{200A}')
    || c == '\U{2028}' || c == '\U{2029}' || c == '\U{202F}' || c == '\U{205F}'
    || c == '\U{3000}' || c == '\U{FEFF}'
  }

  predicate NotSpace(c: char) {
    !IsSpace(c)
  }

  predicate IsDot(c: char) {
    c == '.'
  }

  predicate IsSlash(c: char) {
    c == '/'
  }

  predicate IsUpper(c: char) {
    'A' <= c <= 'Z'
  }

  function LowerChar(c: char): (d: char)
    ensures IsUpper(c) ==> d as int == c as int + 32
    ensures !IsUpper(c) ==> d == c
  {
    if IsUpper(c) then (c as int + 32) as char else c
  }

  /** `toLowerCase`, for the ASCII letters. */
  function ToLower(s: string): (r: string)
    ensures |r| == |s|
    ensures forall i :: 0 <= i < |s| ==> r[i] == LowerChar(s[i])
  {
    seq(|s|, i requires 0 <= i < |s| => LowerChar(s[i]))
  }

  predicate StartsWith(s: string, prefix: string) {
    |prefix| <= |s| && s[..|prefix|] == prefix
  }

  predicate OccursAt(s: string, part: string, i: int) {
    0 <= i && i + |part| <= |s| && s[i..i + |part|] == part
  }

  /** `s.includes(part)`. */
  predicate Contains(s: string, part: string) {
    exists i | 0 <= i <= |s| - |part| :: OccursAt(s, part, i)
  }

  lemma PrefixIsContained(s: string, part: string)
    requires StartsWith(s, part)
    ensures Contains(s, part)
  {
    assert OccursAt(s, part, 0);
  }

  // ---------------------------------------------------------------------
  // split on a character class

  /** `s.split(sep)` for a one-character separator (here: a class of
      characters): the pieces between separator characters, in order. */
  function Split(s: string, isSep: char -> bool): (pieces: seq<string>)
    ensures |pieces| >= 1
    decreases |s|
  {
    if s == [] then [""]
    else if isSep(s[0]) then [""] + Split(s[1..], isSep)
    else
      var rest := Split(s[1..], isSep);
      [[s[0]] + rest[0]] + rest[1..]
  }

  /** The number of characters of `s` in the class. */
  function CountChars(s: string, isSep: char -> bool): nat
    decreases |s|
  {
    if s == [] then 0 else (if isSep(s[0]) then 1 else 0) + CountChars(s[1..], isSep)
  }

  lemma {:induction false} SplitLength(s: string, isSep: char -> bool)
    ensures |Split(s, isSep)| == CountChars(s, isSep) + 1
    decreases |s|
  {
    if s != [] {
      SplitLength(s[1..], isSep);
    }
  }

  /** The first piece of a split is the longest prefix without a
      separator: it is followed by a separator or by the end of `s`. */
  lemma {:induction false} SplitHead(s: string, isSep: char -> bool)
    ensures var h := Split(s, isSep)[0];
      && StartsWith(s, h)
      && (|h| == |s| || isSep(s[|h|]))
      && forall i :: 0 <= i < |h| ==> !isSep(h[i])
    decreases |s|
  {
    if s != [] && !isSep(s[0]) {
      SplitHead(s[1..], isSep);
      var rest := Split(s[1..], isSep);
      assert Split(s, isSep)[0] == [s[0]] + rest[0];
      assert s == [s[0]] + s[1..];
    }
  }

  /** The number of non-empty strings in a list of pieces. */
  function NonEmptyCount(pieces: seq<string>): nat
  {
    if pieces == [] then 0
    else (if pieces[0] != "" then 1 else 0) + NonEmptyCount(pieces[1..])
  }

  /** The number of maximal runs of characters outside the class, counted
      at the last character of each run. */
  function RunCount(s: string, isSep: char -> bool): nat
    decreases |s|
  {
    if s == [] then 0
    else (if !isSep(s[0]) && (|s| == 1 || isSep(s[1])) then 1 else 0) + RunCount(s[1..], isSep)
  }

  /** Splitting and then dropping the empty pieces leaves one piece per
      maximal run of non-separator characters. */
  lemma {:induction false} SplitNonEmptyIsRunCount(s: string, isSep: char -> bool)
    ensures NonEmptyCount(Split(s, isSep)) == RunCount(s, isSep)
    decreases |s|
  {
    if s == [] {
    } else if isSep(s[0]) {
      SplitNonEmptyIsRunCount(s[1..], isSep);
      assert ([""] + Split(s[1..], isSep))[1..] == Split(s[1..], isSep);
    } else {
      var rest := Split(s[1..], isSep);
      SplitNonEmptyIsRunCount(s[1..], isSep);
      SplitHead(s[1..], isSep);
      var pieces := [[s[0]] + rest[0]] + rest[1..];
      assert pieces[1..] == rest[1..];
      assert NonEmptyCount(rest) == (if rest[0] != "" then 1 else 0) + NonEmptyCount(rest[1..]);
      assert rest[0] == "" <==> |s| == 1 || isSep(s[1]);
    }
  }

  // ---------------------------------------------------------------------
  // trim

  function TrimStart(s: string): (r: string)
    ensures |r| <= |s| && r == s[|s| - |r|..]
    ensures s != [] && IsSpace(s[0]) ==> |r| < |s|
    ensures r == [] || !IsSpace(r[0])
    ensures forall i :: 0 <= i < |s| - |r| ==> IsSpace(s[i])
    decreases |s|
  {
    if s != [] && IsSpace(s[0]) then
      var r := TrimStart(s[1..]);
      assert forall i :: 1 <= i < |s| - |r| ==> s[i] == s[1..][i - 1];
      r
    else s
  }

  function TrimEnd(s: string): (r: string)
    ensures |r| <= |s| && r == s[..|r|]
    ensures r == [] || !IsSpace(r[|r| - 1])
    ensures forall i :: |r| <= i < |s| ==> IsSpace(s[i])
    decreases |s|
  {
    if s != [] && IsSpace(s[|s| - 1]) then TrimEnd(s[..|s| - 1]) else s
  }

  /** `r` is the infix of `s` starting at `a`, and every character of `s`
      outside it is whitespace. */
  predicate TrimmedAt(s: string, r: string, a: int) {
    && 0 <= a <= |s| - |r| && r == s[a..a + |r|]
    && (forall i :: 0 <= i < a ==> IsSpace(s[i]))
    && (forall i :: a + |r| <= i < |s| ==> IsSpace(s[i]))
  }

  /** `s.trim()`: the infix of `s` left once the whitespace at both ends
      is removed. */
  function Trim(s: string): (r: string)
    ensures r == [] || (!IsSpace(r[0]) && !IsSpace(r[|r| - 1]))
    ensures exists a :: TrimmedAt(s, r, a)
  {
    var t := TrimStart(s);
    var r := TrimEnd(t);
    var a := |s| - |t|;
    assert r == s[a..a + |r|] by {
      assert t == s[a..];
      assert r == t[..|r|];
    }
    forall i | a + |r| <= i < |s| ensures IsSpace(s[i]) {
      assert s[i] == t[i - a];
    }
    assert TrimmedAt(s, r, a);
    r
  }

  lemma {:induction false} TrimStartKeepsWords(s: string)
    ensures RunCount(TrimStart(s), IsSpace) == RunCount(s, IsSpace)
    decreases |s|
  {
    if s != [] && IsSpace(s[0]) {
      TrimStartKeepsWords(s[1..]);
    }
  }

  lemma {:induction false} TrailingSpaceKeepsWords(t: string, c: char)
    requires IsSpace(c)
    ensures RunCount(t + [c], IsSpace) == RunCount(t, IsSpace)
    decreases |t|
  {
    if t != [] {
      assert (t + [c])[1..] == t[1..] + [c];
      TrailingSpaceKeepsWords(t[1..], c);
    }
  }

  lemma {:induction false} TrimEndKeepsWords(s: string)
    ensures RunCount(TrimEnd(s), IsSpace) == RunCount(s, IsSpace)
    decreases |s|
  {
    if s != [] && IsSpace(s[|s| - 1]) {
      var t := s[..|s| - 1];
      assert s == t + [s[|s| - 1]];
      TrailingSpaceKeepsWords(t, s[|s| - 1]);
      TrimEndKeepsWords(t);
    }
  }

  /** Trimming removes white space only, so no word is lost. */
  lemma TrimKeepsWords(s: string)
    ensures RunCount(Trim(s), IsSpace) == RunCount(s, IsSpace)
  {
    TrimStartKeepsWords(s);
    TrimEndKeepsWords(TrimStart(s));
  }

  // ---------------------------------------------------------------------
  // split(/\s+/)

  /** `s.split(/\s+/)`: the pieces between maximal runs of white space.
      A leading or trailing run gives an empty first or last piece, and the
      empty string gives one empty piece. */
  function SplitRuns(s: string): (pieces: seq<string>)
    ensures |pieces| >= 1
    decreases |s|
  {
    if s == [] then [""]
    else if IsSpace(s[0]) then [""] + SplitRuns(TrimStart(s))
    else
      var rest := SplitRuns(s[1..]);
      [[s[0]] + rest[0]] + rest[1..]
  }

  lemma {:induction false} SplitRunsHeadEmpty(s: string)
    ensures SplitRuns(s)[0] == "" <==> s == [] || IsSpace(s[0])
  {
  }

  /** A leading run of white space is one run of white space, however long. */
  lemma {:induction false} LeadingSpaceRun(s: string)
    requires s != [] && IsSpace(s[0])
    ensures RunCount(s, NotSpace) == 1 + RunCount(TrimStart(s), NotSpace)
    decreases |s|
  {
    if |s| > 1 && IsSpace(s[1]) {
      LeadingSpaceRun(s[1..]);
    }
  }

  /** `split(/\s+/)` followed by dropping empty pieces counts the words. */
  lemma {:induction false} SplitRunsNonEmptyIsWords(s: string)
    ensures NonEmptyCount(SplitRuns(s)) == RunCount(s, IsSpace)
    decreases |s|
  {
    if s == [] {
    } else if IsSpace(s[0]) {
      SplitRunsNonEmptyIsWords(TrimStart(s));
      TrimStartKeepsWords(s);
      assert ([""] + SplitRuns(TrimStart(s)))[1..] == SplitRuns(TrimStart(s));
    } else {
      var rest := SplitRuns(s[1..]);
      SplitRunsNonEmptyIsWords(s[1..]);
      SplitRunsHeadEmpty(s[1..]);
      var pieces := [[s[0]] + rest[0]] + rest[1..];
      assert pieces[1..] == rest[1..];
      assert NonEmptyCount(rest) == (if rest[0] != "" then 1 else 0) + NonEmptyCount(rest[1..]);
    }
  }

  /** `split(/\s+/)` gives one piece more than there are runs of white space. */
  lemma {:induction false} SplitRunsLength(s: string)
    ensures |SplitRuns(s)| == 1 + RunCount(s, NotSpace)
    decreases |s|
  {
    if s == [] {
    } else if IsSpace(s[0]) {
      SplitRunsLength(TrimStart(s));
      LeadingSpaceRun(s);
    } else {
      SplitRunsLength(s[1..]);
    }
  }

  /** Runs of words and runs of white space alternate: their numbers differ
      by how the string begins and ends. */
  lemma {:induction false} RunsAlternate(s: string)
    requires s != []
    ensures RunCount(s, IsSpace) - RunCount(s, NotSpace)
         == (if IsSpace(s[0]) then 0 else 1) + (if IsSpace(s[|s| - 1]) then 0 else 1) - 1
    decreases |s|
  {
    if |s| > 1 {
      RunsAlternate(s[1..]);
      assert s[1..][|s[1..]| - 1] == s[|s| - 1];
    }
  }

  /** `s.trim().split(/\s+/).length` is the number of words, except that a
      blank string still gives one (empty) piece. */
  lemma TrimSplitLength(s: string)
    ensures |SplitRuns(Trim(s))| == if RunCount(s, IsSpace) == 0 then 1 else RunCount(s, IsSpace)
  {
    var t := Trim(s);
    TrimKeepsWords(s);
    SplitRunsLength(t);
    if t != [] {
      RunsAlternate(t);
    }
  }

  // ---------------------------------------------------------------------
  // rendering

  function DigitChar(d: nat): char
    requires d < 10
  {
    ('0' as int + d) as char
  }

  predicate IsDigit(c: char) {
    '0' <= c <= '9'
  }

  /** The number a string of decimal digits denotes. */
  function DigitsValue(r: string): nat
    requires forall i :: 0 <= i < |r| ==> IsDigit(r[i])
  {
    if r == [] then 0
    else
      assert IsDigit(r[|r| - 1]);
      DigitsValue(r[..|r| - 1]) * 10 + (r[|r| - 1] as int - '0' as int)
  }

  /** The decimal text of a non-negative integer, as a template literal
      renders it: digits denoting `n`, with no leading zero. */
  function NatToString(n: nat): (r: string)
    ensures |r| >= 1
    ensures forall i :: 0 <= i < |r| ==> IsDigit(r[i])
    ensures DigitsValue(r) == n
    ensures r[0] == '0' <==> n == 0
    ensures |r| > 1 ==> r[0] != '0'
  {
    if n < 10 then [DigitChar(n)]
    else
      var prefix := NatToString(n / 10);
      var r := prefix + [DigitChar(n % 10)];
      assert r[..|r| - 1] == prefix;
      r
  }

  /** `parts.join(sep)`. */
  function Join(parts: seq<string>, sep: string): string
  {
    if parts == [] then ""
    else if |parts| == 1 then parts[0]
    else parts[0] + sep + Join(parts[1..], sep)
  }
}
