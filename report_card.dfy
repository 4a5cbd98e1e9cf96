/** `src/components/ReportCard.tsx`: one tile per score, labelled from the
    score's key, coloured by band, and one row per recommendation. */
module ReportCard {
  import opened Text
  import ResultsDisplay

  datatype CardColor = Green600 | Yellow600 | Red600

  function CardColorClass(c: CardColor): string {
    match c
    case Green600 => "text-green-600"
    case Yellow600 => "text-yellow-600"
    case Red600 => "text-red-600"
  }

  /** Green from 90, yellow from 70, red below. */
  function ScoreColor(score: int): (c: CardColor)
    ensures c == Green600 <==> score >= 90
    ensures c == Yellow600 <==> 70 <= score < 90
    ensures c == Red600 <==> score < 70
  {
    if score >= 90 then Green600 else if score >= 70 then Yellow600 else Red600
  }

  /** The card and the results view agree on what is green at the top, but
      a score from 70 to 89 is yellow on the card and light green in the
      results view, and everything below 70 is red on the card. */
  lemma CardAndDisplayBands(score: int)
    ensures ScoreColor(score) == Green600 <==> ResultsDisplay.ScoreColor(score) == ResultsDisplay.Green500
    ensures ScoreColor(score) == Yellow600 <==> ResultsDisplay.ScoreColor(score) == ResultsDisplay.Green400
    ensures ScoreColor(score) == Red600 <==> ResultsDisplay.ColorRank(ResultsDisplay.ScoreColor(score)) <= 2
  {
  }

  /** `key.replace(/([A-Z])/g, ' $1')`: a space before every ASCII capital
      letter. */
  function SpaceBeforeCapitals(key: string): (r: string)
    ensures |r| >= |key|
    ensures r == [] <==> key == []
  {
    if key == [] then []
    else (if IsUpper(key[0]) then [' ', key[0]] else [key[0]]) + SpaceBeforeCapitals(key[1..])
  }

  lemma {:induction false} SpaceBeforeCapitalsConcat(a: string, b: string)
    ensures SpaceBeforeCapitals(a + b) == SpaceBeforeCapitals(a) + SpaceBeforeCapitals(b)
    decreases |a|
  {
    if a == [] {
      assert a + b == b;
    } else {
      assert (a + b)[0] == a[0];
      assert (a + b)[1..] == a[1..] + b;
      SpaceBeforeCapitalsConcat(a[1..], b);
    }
  }

  predicate HasNoCapitals(key: string) {
    forall i :: 0 <= i < |key| ==> !IsUpper(key[i])
  }

  predicate HasNoSpaces(key: string) {
    forall i :: 0 <= i < |key| ==> !IsSpace(key[i])
  }

  /** Without capitals the replacement changes nothing. */
  lemma {:induction false} NoCapitalsUnchanged(key: string)
    requires HasNoCapitals(key)
    ensures SpaceBeforeCapitals(key) == key
    decreases |key|
  {
    if key != [] {
      assert HasNoCapitals(key[1..]) by {
        forall i | 0 <= i < |key[1..]| ensures !IsUpper(key[1..][i]) {
          assert key[1..][i] == key[i + 1];
        }
      }
      NoCapitalsUnchanged(key[1..]);
    }
  }

  /** The replacement never ends in a space when the key has none, and it
      starts with one exactly when the key starts with a capital. */
  lemma {:induction false} SpacedEnds(key: string)
    requires key != [] && HasNoSpaces(key)
    ensures var r := SpaceBeforeCapitals(key);
      r[|r| - 1] == key[|key| - 1] && (IsSpace(r[0]) <==> IsUpper(key[0]))
    decreases |key|
  {
    if |key| > 1 {
      assert HasNoSpaces(key[1..]) by {
        forall i | 0 <= i < |key[1..]| ensures !IsSpace(key[1..][i]) {
          assert key[1..][i] == key[i + 1];
        }
      }
      SpacedEnds(key[1..]);
    }
  }

  lemma TrimStartUntouched(s: string)
    requires s != [] && !IsSpace(s[0])
    ensures TrimStart(s) == s
  {
  }

  lemma TrimEndUntouched(s: string)
    requires s != [] && !IsSpace(s[|s| - 1])
    ensures TrimEnd(s) == s
  {
  }

  /** `trim` leaves a string alone that neither starts nor ends with white
      space. */
  lemma TrimUntouched(s: string)
    requires s != [] && !IsSpace(s[0]) && !IsSpace(s[|s| - 1])
    ensures Trim(s) == s
  {
    TrimStartUntouched(s);
    TrimEndUntouched(s);
  }

  /** `trim` drops a leading space. */
  lemma TrimStartDropsSpace(s: string)
    requires s != [] && s[0] == ' '
    ensures TrimStart(s) == TrimStart(s[1..])
  {
  }

  /** The tile label of a score's key. */
  function Label(key: string): string {
    Trim(SpaceBeforeCapitals(key))
  }

  /** `trim` of a string with one leading space and no other white space
      at its ends drops just that space. */
  lemma TrimDropsLeadingSpace(s: string)
    requires |s| >= 2 && s[0] == ' ' && !IsSpace(s[1]) && !IsSpace(s[|s| - 1])
    ensures Trim(s) == s[1..]
  {
    var t := s[1..];
    assert t[0] == s[1] && t[|t| - 1] == s[|s| - 1];
    TrimStartDropsSpace(s);
    TrimUntouched(t);
  }

  /** A replacement that starts with the inserted space loses just that
      space to `trim`. */
  lemma LabelDropsLeadingSpace(key: string)
    requires key != [] && HasNoSpaces(key) && IsUpper(key[0])
    ensures Label(key) == SpaceBeforeCapitals(key)[1..]
  {
    SpacedEnds(key);
    var r := SpaceBeforeCapitals(key);
    assert r == [' ', key[0]] + SpaceBeforeCapitals(key[1..]);
    assert r[1] == key[0] && !IsSpace(key[0]);
    TrimDropsLeadingSpace(r);
  }

  /** For a key without white space, the label is the key with a space
      before every capital, less the one in front of a leading capital. */
  lemma LabelOfKey(key: string)
    requires HasNoSpaces(key)
    ensures key == [] || !IsUpper(key[0]) ==> Label(key) == SpaceBeforeCapitals(key)
    ensures key != [] && IsUpper(key[0]) ==> Label(key) == SpaceBeforeCapitals(key)[1..]
  {
    if key == [] {
      assert SpaceBeforeCapitals(key) == [];
      assert Trim([]) == [];
    } else if IsUpper(key[0]) {
      LabelDropsLeadingSpace(key);
    } else {
      LabelKeepsStart(key);
    }
  }

  /** A replacement that does not start with a space is left alone by
      `trim`. */
  lemma LabelKeepsStart(key: string)
    requires key != [] && HasNoSpaces(key) && !IsUpper(key[0])
    ensures Label(key) == SpaceBeforeCapitals(key)
  {
    SpacedEnds(key);
    var r := SpaceBeforeCapitals(key);
    assert !IsSpace(key[|key| - 1]);
    assert r != [] && !IsSpace(r[0]) && !IsSpace(r[|r| - 1]);
    TrimUntouched(r);
  }

  /** A key without capitals or white space is its own label. */
  lemma LowerKeyIsItsOwnLabel(key: string)
    requires HasNoCapitals(key) && HasNoSpaces(key)
    ensures Label(key) == key
  {
    NoCapitalsUnchanged(key);
    LabelOfKey(key);
  }

  /** A word that starts with a capital and has no other gains just the
      space in front. */
  lemma CapitalizedWordSpaced(word: string)
    requires word != [] && IsUpper(word[0]) && HasNoCapitals(word[1..])
    ensures SpaceBeforeCapitals(word) == [' '] + word
  {
    var rest := word[1..];
    var head := [' ', word[0]];
    assert SpaceBeforeCapitals(word) == head + SpaceBeforeCapitals(rest);
    NoCapitalsUnchanged(rest);
    assert head + rest == [' '] + word by {
      assert word == [word[0]] + rest;
    }
  }

  /** The replacement of a camel-case key of two words inserts exactly
      one space, between the words. */
  lemma CamelCaseSpaced(first: string, second: string)
    requires HasNoCapitals(first)
    requires second != [] && IsUpper(second[0]) && HasNoCapitals(second[1..])
    ensures SpaceBeforeCapitals(first + second) == first + [' '] + second
  {
    SpaceBeforeCapitalsConcat(first, second);
    NoCapitalsUnchanged(first);
    CapitalizedWordSpaced(second);
    assert first + ([' '] + second) == first + [' '] + second;
  }

  /** A key of two words in camel case, `aB…`, is labelled with one
      space between the words. */
  lemma CamelCaseLabel(first: string, second: string)
    requires first != [] && HasNoCapitals(first) && HasNoSpaces(first)
    requires second != [] && IsUpper(second[0]) && HasNoCapitals(second[1..]) && HasNoSpaces(second)
    ensures Label(first + second) == first + [' '] + second
  {
    CamelCaseSpaced(first, second);
    var r := first + [' '] + second;
    assert SpaceBeforeCapitals(first + second) == r;
    assert !IsSpace(first[0]) && !IsSpace(second[|second| - 1]);
    assert r[0] == first[0] && r[|r| - 1] == second[|second| - 1];
    TrimUntouched(r);
  }

  /** The best-practices score is labelled "best Practices". */
  lemma BestPracticesLabel()
    ensures Label("bestPractices") == "best Practices"
  {
    var first, second := "best", "Practices";
    BestPracticesWords();
    CamelCaseLabel(first, second);
    assert first + second == "bestPractices";
    assert first + [' '] + second == "best Practices";
  }

  /** The two words of `bestPractices` meet the camel-case conditions. */
  lemma BestPracticesWords()
    ensures HasNoCapitals("best") && HasNoSpaces("best")
    ensures IsUpper("Practices"[0]) && HasNoCapitals("Practices"[1..]) && HasNoSpaces("Practices")
  {
    assert "Practices"[1..] == "ractices";
  }

  /** A score tile. */
  datatype Tile = Tile(heading: string, value: int, color: CardColor)

  /** One tile per entry of the scores object, in its order, each with the
      label of its key and the colour of its value. */
  function Tiles(entries: seq<(string, int)>): (tiles: seq<Tile>)
    ensures |tiles| == |entries|
    ensures forall i :: 0 <= i < |entries| ==>
      tiles[i].heading == Label(entries[i].0) && tiles[i].value == entries[i].1
    ensures forall i :: 0 <= i < |entries| ==> tiles[i].color == ScoreColor(entries[i].1)
  {
    seq(|entries|, i requires 0 <= i < |entries| =>
      Tile(Label(entries[i].0), entries[i].1, ScoreColor(entries[i].1)))
  }
}
